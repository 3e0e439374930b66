/** The two passes of `searchLocationsByQuery`, over arbitrary alias and
    record tables, and what they compute. */
module LocationSearch {
  import opened Wrappers
  import opened Text
  import opened Entries
  import opened Seqs
  import opened WeatherTypes

  /** `weather[key]?.location`. */
  function DisplayNameOf(weather: Table<WeatherData>, key: string): Option<string> {
    match Lookup(weather, key)
    case Some(r) => Some(r.location)
    case None => None
  }

  /** What the first pass pushes for `alias` (unless already present): the
      display name of its target when the alias key contains `q` and the
      name passes the `location &&` guard. */
  function AliasHit(alias: (string, string), weather: Table<WeatherData>, q: string): Option<string> {
    if Contains(alias.0, q) then
      match DisplayNameOf(weather, alias.1)
      case Some(loc) => if loc != "" then Some(loc) else None
      case None => None
    else None
  }

  /** `matchingLocations` after the first `forEach` has visited `aliases`. */
  function AliasPass(aliases: Table<string>, weather: Table<WeatherData>, q: string): seq<string>
    decreases |aliases|
  {
    if aliases == [] then []
    else
      var acc := AliasPass(aliases[..|aliases| - 1], weather, q);
      match AliasHit(aliases[|aliases| - 1], weather, q)
      case Some(loc) => AddIfAbsent(acc, loc)
      case None => acc
  }

  /** `matchingLocations`, starting from `acc`, after the second `forEach`
      has visited `records`. */
  function NamePass(acc: seq<string>, records: seq<WeatherData>, q: string): seq<string>
    decreases |records|
  {
    if records == [] then acc
    else
      var a := NamePass(acc, records[..|records| - 1], q);
      var loc := records[|records| - 1].location;
      if Contains(Lower(loc), q) then AddIfAbsent(a, loc) else a
  }

  /** Both passes over arbitrary tables, for the lower-cased query. */
  function Search(aliases: Table<string>, weather: Table<WeatherData>, query: string): seq<string> {
    var q := Lower(query);
    NamePass(AliasPass(aliases, weather, q), Values(weather), q)
  }

  lemma {:induction false} AliasPassNoDup(aliases: Table<string>, weather: Table<WeatherData>, q: string)
    ensures NoDup(AliasPass(aliases, weather, q))
  {
    if aliases != [] {
      AliasPassNoDup(aliases[..|aliases| - 1], weather, q);
    }
  }

  lemma {:induction false} NamePassNoDup(acc: seq<string>, records: seq<WeatherData>, q: string)
    requires NoDup(acc)
    ensures NoDup(NamePass(acc, records, q))
  {
    if records != [] {
      NamePassNoDup(acc, records[..|records| - 1], q);
    }
  }

  /** A name is in the first pass's list exactly when some alias hits it. */
  lemma {:induction false} AliasPassMembers(aliases: Table<string>, weather: Table<WeatherData>, q: string, x: string)
    ensures x in AliasPass(aliases, weather, q) <==>
      exists i :: 0 <= i < |aliases| && AliasHit(aliases[i], weather, q) == Some(x)
  {
    if aliases != [] {
      AliasPassMembers(aliases[..|aliases| - 1], weather, q, x);
      AliasHitsSplit(aliases, weather, q, x);
    }
  }

  /** An alias hit is a hit among all but the last alias, or at the last. */
  lemma AliasHitsSplit(aliases: Table<string>, weather: Table<WeatherData>, q: string, x: string)
    requires aliases != []
    ensures var n := |aliases| - 1;
      (exists i :: 0 <= i < |aliases| && AliasHit(aliases[i], weather, q) == Some(x)) <==>
      ((exists i :: 0 <= i < n && AliasHit(aliases[..n][i], weather, q) == Some(x))
        || AliasHit(aliases[n], weather, q) == Some(x))
  {
    ExistsSplit(aliases, a => AliasHit(a, weather, q) == Some(x));
  }

  /** Some element satisfies `p` exactly when some element but the last, or
      the last, does. */
  lemma ExistsSplit<T>(s: seq<T>, p: T -> bool)
    requires s != []
    ensures var n := |s| - 1;
      (exists i :: 0 <= i < |s| && p(s[i])) <==> ((exists i :: 0 <= i < n && p(s[..n][i])) || p(s[n]))
  {
    var n := |s| - 1;
    if exists i :: 0 <= i < |s| && p(s[i]) {
      var i :| 0 <= i < |s| && p(s[i]);
      if i < n {
        assert s[..n][i] == s[i];
      }
    }
    if exists i :: 0 <= i < n && p(s[..n][i]) {
      var i :| 0 <= i < n && p(s[..n][i]);
      assert s[i] == s[..n][i];
    }
  }

  /** A name is in the second pass's list exactly when it was already there
      or some record with that display name matches. */
  lemma {:induction false} NamePassMembers(acc: seq<string>, records: seq<WeatherData>, q: string, x: string)
    ensures x in NamePass(acc, records, q) <==>
      x in acc || exists j :: 0 <= j < |records| && records[j].location == x && Contains(Lower(x), q)
  {
    if records != [] {
      var n := |records| - 1;
      var init := records[..n];
      NamePassMembers(acc, init, q, x);
      if exists j :: 0 <= j < |records| && records[j].location == x && Contains(Lower(x), q) {
        var j :| 0 <= j < |records| && records[j].location == x && Contains(Lower(x), q);
        if j < n {
          assert init[j] == records[j];
        }
      }
      if exists j :: 0 <= j < |init| && init[j].location == x && Contains(Lower(x), q) {
        var j :| 0 <= j < |init| && init[j].location == x && Contains(Lower(x), q);
        assert records[j] == init[j];
      }
    }
  }

  /** The names the first pass finds, in alias order, repetitions included. */
  function AliasHits(aliases: Table<string>, weather: Table<WeatherData>, q: string): seq<string>
    decreases |aliases|
  {
    if aliases == [] then []
    else
      AliasHits(aliases[..|aliases| - 1], weather, q) +
      match AliasHit(aliases[|aliases| - 1], weather, q)
      case Some(loc) => [loc]
      case None => []
  }

  /** The matching display names of `records` not already in `acc`, in table order. */
  function NewNames(acc: seq<string>, records: seq<WeatherData>, q: string): seq<string>
    decreases |records|
  {
    if records == [] then []
    else
      var loc := records[|records| - 1].location;
      NewNames(acc, records[..|records| - 1], q) +
      (if Contains(Lower(loc), q) && loc !in acc then [loc] else [])
  }

  /** The first pass keeps the first hit of each name, in alias order. */
  lemma {:induction false} AliasPassIsFirstHits(aliases: Table<string>, weather: Table<WeatherData>, q: string)
    ensures AliasPass(aliases, weather, q) == Dedup(AliasHits(aliases, weather, q))
  {
    if aliases != [] {
      var n := |aliases| - 1;
      var init := aliases[..n];
      AliasPassIsFirstHits(init, weather, q);
      var hits := AliasHits(aliases, weather, q);
      match AliasHit(aliases[n], weather, q)
      case Some(loc) =>
        assert hits == AliasHits(init, weather, q) + [loc];
        assert hits[..|hits| - 1] == AliasHits(init, weather, q);
      case None =>
        assert hits == AliasHits(init, weather, q) + [];
        assert hits == AliasHits(init, weather, q);
    }
  }

  /** The second pass appends, in table order, the first occurrence of each
      matching display name not found by the first pass. */
  lemma {:induction false} NamePassAppends(acc: seq<string>, records: seq<WeatherData>, q: string)
    ensures NamePass(acc, records, q) == acc + Dedup(NewNames(acc, records, q))
  {
    if records == [] {
      assert acc + [] == acc;
    } else {
      var n := |records| - 1;
      var init := records[..n];
      NamePassAppends(acc, init, q);
      var loc := records[n].location;
      var prev := NewNames(acc, init, q);
      DedupMembers(prev);
      var names := NewNames(acc, records, q);
      if Contains(Lower(loc), q) && loc !in acc {
        assert names == prev + [loc];
        assert names[..|names| - 1] == prev;
        assert loc in acc + Dedup(prev) <==> loc in Dedup(prev);
        if loc !in Dedup(prev) {
          assert acc + Dedup(prev) + [loc] == acc + (Dedup(prev) + [loc]);
        }
      } else {
        assert names == prev + [];
        assert names == prev;
        if Contains(Lower(loc), q) {
          assert loc in acc + Dedup(prev);
        }
      }
    }
  }


  // ---------------------------------------------------------------------
  // The whole search

  /** `searchLocationsByQuery` over the given tables: two loops growing
      `matching` with pushes guarded by `includes`. */
  method SearchTables(aliases: Table<string>, weather: Table<WeatherData>, query: string)
    returns (matching: seq<string>)
    requires DistinctKeys(aliases)
    ensures matching == Search(aliases, weather, query)
  {
    var q := Lower(query);
    matching := [];
    var keys := Keys(aliases);
    for i := 0 to |keys|
      invariant matching == AliasPass(aliases[..i], weather, q)
    {
      var key := keys[i];
      assert aliases[..i + 1][..i] == aliases[..i];
      if Contains(key, q) {
        LookupAt(aliases, i);
        var target := Lookup(aliases, key).value;
        var location := DisplayNameOf(weather, target);
        if location.Some? && location.value != "" && location.value !in matching {
          matching := matching + [location.value];
        }
      }
    }
    assert aliases[..|keys|] == aliases;
    ghost var afterAliases := matching;
    var values := Values(weather);
    for j := 0 to |values|
      invariant matching == NamePass(afterAliases, values[..j], q)
    {
      var data := values[j];
      assert values[..j + 1][..j] == values[..j];
      if Contains(Lower(data.location), q) && data.location !in matching {
        matching := matching + [data.location];
      }
    }
    assert values[..|values|] == values;
  }

  /** Every alias resolves to a record with a non-empty display name. */
  ghost predicate AliasesResolve(aliases: Table<string>, weather: Table<WeatherData>) {
    forall i :: 0 <= i < |aliases| ==>
      DisplayNameOf(weather, aliases[i].1).Some? && DisplayNameOf(weather, aliases[i].1).value != ""
  }

  /** Aliases whose targets are keys of records with non-empty names resolve. */
  lemma KeysResolve(aliases: Table<string>, weather: Table<WeatherData>)
    requires forall i :: 0 <= i < |aliases| ==> aliases[i].1 in Keys(weather)
    requires forall j :: 0 <= j < |weather| ==> weather[j].1.location != ""
    ensures AliasesResolve(aliases, weather)
  {
    forall i | 0 <= i < |aliases|
      ensures DisplayNameOf(weather, aliases[i].1).Some? && DisplayNameOf(weather, aliases[i].1).value != ""
    {
      var r := Lookup(weather, aliases[i].1).value;
      var j :| 0 <= j < |weather| && weather[j] == (aliases[i].1, r);
    }
  }

  lemma SearchNoDup(aliases: Table<string>, weather: Table<WeatherData>, query: string)
    ensures NoDup(Search(aliases, weather, query))
  {
    var q := Lower(query);
    AliasPassNoDup(aliases, weather, q);
    NamePassNoDup(AliasPass(aliases, weather, q), Values(weather), q);
  }

  /** Membership in the result: an alias hit or a display-name hit. */
  lemma SearchMembers(aliases: Table<string>, weather: Table<WeatherData>, query: string, x: string)
    ensures x in Search(aliases, weather, query) <==>
      || (exists i :: 0 <= i < |aliases| && AliasHit(aliases[i], weather, Lower(query)) == Some(x))
      || (exists j :: 0 <= j < |weather| && weather[j].1.location == x && Contains(Lower(x), Lower(query)))
  {
    var q := Lower(query);
    var values := Values(weather);
    AliasPassMembers(aliases, weather, q, x);
    NamePassMembers(AliasPass(aliases, weather, q), values, q, x);
    if exists j :: 0 <= j < |weather| && weather[j].1.location == x && Contains(Lower(x), q) {
      var j :| 0 <= j < |weather| && weather[j].1.location == x && Contains(Lower(x), q);
      assert values[j].location == x;
    }
  }

  /** When every alias resolves, an alias hit is just "the key contains the
      query and the target's display name is `x`". */
  lemma SearchMembersResolved(aliases: Table<string>, weather: Table<WeatherData>, query: string, x: string)
    requires AliasesResolve(aliases, weather)
    ensures x in Search(aliases, weather, query) <==>
      || (exists i :: 0 <= i < |aliases| && Contains(aliases[i].0, Lower(query)) &&
                      DisplayNameOf(weather, aliases[i].1) == Some(x))
      || (exists j :: 0 <= j < |weather| && weather[j].1.location == x && Contains(Lower(x), Lower(query)))
  {
    SearchMembers(aliases, weather, query, x);
    var q := Lower(query);
    if exists i :: 0 <= i < |aliases| && Contains(aliases[i].0, q) && DisplayNameOf(weather, aliases[i].1) == Some(x) {
      var i :| 0 <= i < |aliases| && Contains(aliases[i].0, q) && DisplayNameOf(weather, aliases[i].1) == Some(x);
      assert AliasHit(aliases[i], weather, q) == Some(x);
    }
  }

  /** Everything returned is the display name of some record. */
  lemma SearchFindsRecordNames(aliases: Table<string>, weather: Table<WeatherData>, query: string, x: string)
    requires x in Search(aliases, weather, query)
    ensures exists j :: 0 <= j < |weather| && weather[j].1.location == x
  {
    SearchMembers(aliases, weather, query, x);
    if exists i :: 0 <= i < |aliases| && AliasHit(aliases[i], weather, Lower(query)) == Some(x) {
      var i :| 0 <= i < |aliases| && AliasHit(aliases[i], weather, Lower(query)) == Some(x);
      var r := Lookup(weather, aliases[i].1).value;
      var j :| 0 <= j < |weather| && weather[j] == (aliases[i].1, r);
      assert weather[j].1.location == x;
    }
  }

  /** The empty query matches every display name. */
  lemma SearchEmptyFindsAll(aliases: Table<string>, weather: Table<WeatherData>, x: string)
    ensures x in Search(aliases, weather, "") <==> exists j :: 0 <= j < |weather| && weather[j].1.location == x
  {
    SearchMembers(aliases, weather, "", x);
    if x in Search(aliases, weather, "") {
      SearchFindsRecordNames(aliases, weather, "", x);
    }
    ContainsEmpty(Lower(x));
    assert Lower("") == "";
  }

  /** The order of the result: first hits by alias in alias order, then the
      remaining display-name matches in table order. */
  lemma SearchOrdered(aliases: Table<string>, weather: Table<WeatherData>, query: string)
    ensures var q := Lower(query);
            var byAlias := Dedup(AliasHits(aliases, weather, q));
            Search(aliases, weather, query) == byAlias + Dedup(NewNames(byAlias, Values(weather), q))
  {
    var q := Lower(query);
    AliasPassIsFirstHits(aliases, weather, q);
    NamePassAppends(AliasPass(aliases, weather, q), Values(weather), q);
  }
}
