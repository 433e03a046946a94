/** `toolServerMap` as `main` uses it: looking up the client that serves a
    tool, and closing every distinct client once through a `Set`. */
module Routing {
  import opened Types

  /** `toolServerMap.get(name)`: the client registered for `name`, if any.
      Keys of a `Map` are unique, so the first matching entry is the only one. */
  function Lookup(route: seq<RouteEntry>, name: string): (r: Option<ClientId>)
    ensures r.None? <==> forall i :: 0 <= i < |route| ==> route[i].name != name
    ensures r.Some? ==> exists i :: 0 <= i < |route| && route[i] == RouteEntry(name, r.value)
  {
    if route == [] then None
    else if route[0].name == name then Some(route[0].client)
    else
      var r := Lookup(route[1..], name);
      assert forall i :: 0 < i < |route| ==> route[i] == route[1..][i - 1];
      r
  }

  /** `toolServerMap.values()`, in insertion order. */
  function RouteClients(route: seq<RouteEntry>): seq<ClientId>
  {
    seq(|route|, i requires 0 <= i < |route| => route[i].client)
  }

  /** The elements of `xs` in order of first occurrence: what iterating
      `new Set(xs)` visits. */
  function Distinct(xs: seq<ClientId>): seq<ClientId>
  {
    if xs == [] then []
    else
      var d := Distinct(xs[..|xs| - 1]);
      if xs[|xs| - 1] in d then d else d + [xs[|xs| - 1]]
  }

  /** Every client that occurs in `xs` occurs exactly once in `Distinct(xs)`,
      and no other does. */
  lemma {:induction false} DistinctOnce(xs: seq<ClientId>)
    ensures forall c :: multiset(Distinct(xs))[c] == if c in xs then 1 else 0
    decreases |xs|
  {
    if xs != [] {
      var front := xs[..|xs| - 1];
      var x := xs[|xs| - 1];
      DistinctOnce(front);
      assert xs == front + [x];
      forall c ensures multiset(Distinct(xs))[c] == if c in xs then 1 else 0 {
        assert c in xs <==> c in front || c == x;
        assert c in Distinct(front) <==> multiset(Distinct(front))[c] > 0;
      }
    }
  }

  /** The closing loop of `main`: every distinct client among the map's
      values, in first-occurrence order, is closed once. */
  method CloseClients(route: seq<RouteEntry>) returns (closed: seq<ClientId>)
    ensures closed == Distinct(RouteClients(route))
  {
    var clients := RouteClients(route);
    var seen: set<ClientId> := {};
    closed := [];
    for i := 0 to |clients|
      invariant closed == Distinct(clients[..i])
      invariant seen == set c | c in closed
    {
      assert clients[..i + 1][..i] == clients[..i];
      var c := clients[i];
      if c !in seen {
        seen := seen + {c};
        closed := closed + [c];
      }
    }
    assert clients[..|clients|] == clients;
  }
}
