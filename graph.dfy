/**
 * The places of one world as a whole: the connection graph kept by
 * connect/disconnect, the required-connections test, and the specifications
 * of the steps that move resources between neighbours (units.py). Places live
 * in an arena `ps`; a place's id is its position and its links hold ids.
 */
module Graph {
  import opened Wrappers
  import opened Seqs
  import opened Resources
  import opened Places

  predicate IdsIn(ps: seq<Place>, ids: seq<nat>) {
    forall j :: 0 <= j < |ids| ==> ids[j] < |ps|
  }

  /** The links of place a: in range, without duplicates and without self-links. */
  predicate LinksOk(ps: seq<Place>, a: nat)
    requires a < |ps|
  {
    && NoDup(ps[a].ingoing) && NoDup(ps[a].outgoing)
    && a !in ps[a].ingoing && a !in ps[a].outgoing
    && (forall b :: b in ps[a].ingoing ==> b < |ps|)
    && (forall b :: b in ps[a].outgoing ==> b < |ps|)
  }

  /** Every link is recorded at both ends: b is an outgoing neighbour of a iff a is an ingoing neighbour of b. */
  predicate Wf(ps: seq<Place>) {
    && (forall a :: 0 <= a < |ps| ==> LinksOk(ps, a))
    && (forall a, b :: 0 <= a < |ps| && 0 <= b < |ps| ==> (b in ps[a].outgoing <==> a in ps[b].ingoing))
  }

  lemma WfIds(ps: seq<Place>, a: nat)
    requires Wf(ps) && a < |ps|
    ensures IdsIn(ps, ps[a].ingoing) && IdsIn(ps, ps[a].outgoing)
  {
    assert LinksOk(ps, a);
    forall j | 0 <= j < |ps[a].ingoing| ensures ps[a].ingoing[j] < |ps| {
      assert ps[a].ingoing[j] in ps[a].ingoing;
    }
    forall j | 0 <= j < |ps[a].outgoing| ensures ps[a].outgoing[j] < |ps| {
      assert ps[a].outgoing[j] in ps[a].outgoing;
    }
  }

  /** qs differs from ps at most in the resources and Node fields of its places. */
  predicate SameShape(ps: seq<Place>, qs: seq<Place>) {
    |qs| == |ps|
    && forall x :: 0 <= x < |ps| ==>
         qs[x].kind == ps[x].kind && qs[x].ingoing == ps[x].ingoing && qs[x].outgoing == ps[x].outgoing
  }

  lemma SameShapeWf(ps: seq<Place>, qs: seq<Place>)
    requires Wf(ps) && SameShape(ps, qs)
    ensures Wf(qs)
  {
    forall a | 0 <= a < |qs| ensures LinksOk(qs, a) {
      assert LinksOk(ps, a);
    }
  }

  /** A place without links can join a well-formed arena. */
  lemma AppendUnlinkedWf(ps: seq<Place>, p: Place)
    requires Wf(ps) && p.ingoing == [] && p.outgoing == []
    ensures Wf(ps + [p])
  {
    var qs := ps + [p];
    forall a | 0 <= a < |qs| ensures LinksOk(qs, a) {
      if a < |ps| {
        assert LinksOk(ps, a);
      }
    }
    forall a, b | 0 <= a < |qs| && 0 <= b < |qs| ensures b in qs[a].outgoing <==> a in qs[b].ingoing {
      if a < |ps| && b < |ps| {
      } else if a < |ps| {
        assert LinksOk(ps, a);
      } else if b < |ps| {
        assert LinksOk(ps, b);
      }
    }
  }

  /** A place with its links cleared: what connect and disconnect must leave alone. */
  function Unlinked(p: Place): Place {
    p.(ingoing := [], outgoing := [])
  }

  /**
   * qs has the places of ps with the links of ps minus the pairs `gone` says
   * and plus the one pair `added` (if any), every list still free of
   * duplicates, and nothing else changed.
   */
  ghost predicate Relinked(ps: seq<Place>, qs: seq<Place>, added: Option<(nat, nat)>, gone: (nat, nat) -> bool) {
    && |qs| == |ps|
    && (forall x :: 0 <= x < |ps| ==> Unlinked(qs[x]) == Unlinked(ps[x]))
    && (forall x :: 0 <= x < |ps| && NoDup(ps[x].ingoing) ==> NoDup(qs[x].ingoing))
    && (forall x :: 0 <= x < |ps| && NoDup(ps[x].outgoing) ==> NoDup(qs[x].outgoing))
    && (forall x, y :: 0 <= x < |ps| ==>
          (y in qs[x].outgoing <==> (y in ps[x].outgoing && !gone(x, y)) || added == Some((x, y))))
    && (forall x, y :: 0 <= x < |ps| ==>
          (y in qs[x].ingoing <==> (y in ps[x].ingoing && !gone(y, x)) || added == Some((y, x))))
  }

  /** Removing links, and adding one between two distinct places, keeps a graph well formed. */
  lemma RelinkedWf(ps: seq<Place>, qs: seq<Place>, added: Option<(nat, nat)>, gone: (nat, nat) -> bool)
    requires Wf(ps) && Relinked(ps, qs, added, gone)
    requires added.Some? ==> added.value.0 != added.value.1 && added.value.0 < |ps| && added.value.1 < |ps|
    ensures Wf(qs)
  {
    forall x | 0 <= x < |qs| ensures LinksOk(qs, x) {
      assert LinksOk(ps, x);
    }
  }

  // ---- connect (units.py:230-251) ----

  /** `a.connect_place(b)`: nothing for a place and itself, otherwise b joins a's outgoing and a joins b's ingoing. */
  function Connect(ps: seq<Place>, a: nat, b: nat): (qs: seq<Place>)
    requires a < |ps| && b < |ps|
    ensures |qs| == |ps|
  {
    if a == b then ps
    else
      ps[a := ps[a].(outgoing := AddIfAbsent(ps[a].outgoing, b))]
        [b := ps[b].(ingoing := AddIfAbsent(ps[b].ingoing, a))]
  }

  function NoneGone(x: nat, y: nat): bool { false }

  /**
   * Connecting adds exactly the link a -> b (unless a == b), changes nothing
   * but links, and keeps the graph well formed.
   */
  lemma ConnectEdges(ps: seq<Place>, a: nat, b: nat)
    requires a < |ps| && b < |ps|
    ensures Relinked(ps, Connect(ps, a, b), if a == b then None else Some((a, b)), NoneGone)
    ensures Wf(ps) ==> Wf(Connect(ps, a, b))
  {
    var qs := Connect(ps, a, b);
    var added: Option<(nat, nat)> := if a == b then None else Some((a, b));
    forall x | 0 <= x < |ps|
      ensures Unlinked(qs[x]) == Unlinked(ps[x])
      ensures NoDup(ps[x].ingoing) ==> NoDup(qs[x].ingoing)
      ensures NoDup(ps[x].outgoing) ==> NoDup(qs[x].outgoing)
      ensures forall y :: y in qs[x].outgoing <==> y in ps[x].outgoing || added == Some((x, y))
      ensures forall y :: y in qs[x].ingoing <==> y in ps[x].ingoing || added == Some((y, x))
    {
      if a == b || (x != a && x != b) {
        assert qs[x] == ps[x];
      } else if x == a {
        assert qs[x] == ps[a].(outgoing := AddIfAbsent(ps[a].outgoing, b));
      } else {
        assert qs[x] == ps[b].(ingoing := AddIfAbsent(ps[b].ingoing, a));
      }
    }
    assert Relinked(ps, qs, added, NoneGone);
    if Wf(ps) {
      RelinkedWf(ps, qs, added, NoneGone);
    }
  }

  /** Connecting twice is connecting once. */
  lemma ConnectIdempotent(ps: seq<Place>, a: nat, b: nat)
    requires a < |ps| && b < |ps|
    ensures Connect(Connect(ps, a, b), a, b) == Connect(ps, a, b)
  {
  }

  // ---- disconnect (units.py:253-269) ----

  predicate Related(p: Place, q: nat) {
    q in p.ingoing || q in p.outgoing
  }

  /** p without q among its neighbours. */
  function Detach(p: Place, q: nat): Place {
    p.(ingoing := Remove(p.ingoing, q), outgoing := Remove(p.outgoing, q))
  }

  /** Both ends of every link between a and b removed. */
  function Cut(ps: seq<Place>, a: nat, b: nat): (qs: seq<Place>)
    requires a < |ps| && b < |ps|
    ensures |qs| == |ps|
  {
    ps[a := Detach(ps[a], b)][b := Detach(ps[b], a)]
  }

  /** What `a.disconnect_place(b)` leaves: a cut when a lists b, otherwise no change. */
  function Severed(ps: seq<Place>, a: nat, b: nat): (qs: seq<Place>)
    requires a < |ps| && b < |ps|
    ensures |qs| == |ps|
  {
    if Related(ps[a], b) then Cut(ps, a, b) else ps
  }

  /** The pair {a, b}, either way round. */
  function Between(a: nat, b: nat): (nat, nat) -> bool {
    (x: nat, y: nat) => (x == a && y == b) || (x == b && y == a)
  }

  /**
   * On a well-formed graph, disconnecting a from b removes exactly the links
   * a -> b and b -> a, from both ends, changes nothing but links and keeps the
   * graph well formed.
   */
  lemma SeveredEdges(ps: seq<Place>, a: nat, b: nat)
    requires Wf(ps) && a < |ps| && b < |ps|
    ensures Relinked(ps, Severed(ps, a, b), None, Between(a, b))
    ensures Wf(Severed(ps, a, b))
  {
    var qs := Severed(ps, a, b);
    var gone := Between(a, b);
    assert LinksOk(ps, a) && LinksOk(ps, b);
    forall x | 0 <= x < |ps|
      ensures Unlinked(qs[x]) == Unlinked(ps[x])
      ensures NoDup(ps[x].ingoing) ==> NoDup(qs[x].ingoing)
      ensures NoDup(ps[x].outgoing) ==> NoDup(qs[x].outgoing)
      ensures forall y :: y in qs[x].outgoing <==> y in ps[x].outgoing && !gone(x, y)
      ensures forall y :: y in qs[x].ingoing <==> y in ps[x].ingoing && !gone(y, x)
    {
      if !Related(ps[a], b) {
        assert qs[x] == ps[x];
        assert b !in ps[a].outgoing && b !in ps[a].ingoing;
        assert a !in ps[b].ingoing && a !in ps[b].outgoing;
      } else if x != a && x != b {
        assert qs[x] == ps[x];
      } else if x == a {
        assert qs[x] == Detach(ps[a], b);
      } else {
        assert qs[x] == Detach(ps[b], a);
      }
    }
    assert Relinked(ps, qs, None, gone);
    RelinkedWf(ps, qs, None, gone);
  }

  /** The graph after `p.disconnect_all_connections()`: p has no links and nobody lists p. */
  function Isolate(ps: seq<Place>, p: nat): (qs: seq<Place>)
    requires p < |ps|
    ensures |qs| == |ps|
  {
    seq(|ps|, i requires 0 <= i < |ps| => if i == p then Unlinked(ps[p]) else Detach(ps[i], p))
  }

  function Touching(p: nat): (nat, nat) -> bool {
    (x: nat, y: nat) => x == p || y == p
  }

  /** Isolating p removes exactly the links that touch p, changes nothing but links and keeps the graph well formed. */
  lemma IsolateEdges(ps: seq<Place>, p: nat)
    requires Wf(ps) && p < |ps|
    ensures Relinked(ps, Isolate(ps, p), None, Touching(p))
    ensures Wf(Isolate(ps, p))
  {
    var qs := Isolate(ps, p);
    forall x, y | 0 <= x < |ps|
      ensures (y in qs[x].outgoing <==> y in ps[x].outgoing && !Touching(p)(x, y))
      ensures (y in qs[x].ingoing <==> y in ps[x].ingoing && !Touching(p)(y, x))
    {
      assert LinksOk(ps, x);
    }
    forall x | 0 <= x < |ps| ensures NoDup(ps[x].ingoing) ==> NoDup(qs[x].ingoing)
      ensures NoDup(ps[x].outgoing) ==> NoDup(qs[x].outgoing)
    {
    }
    RelinkedWf(ps, qs, None, Touching(p));
  }

  // ---- has_required_connections (units.py:155-173) ----

  /** Some place among nbrs produces t (producers) or uses t (otherwise). */
  function Served(ps: seq<Place>, nbrs: seq<nat>, t: ResourceKind, producers: bool): bool
    requires IdsIn(ps, nbrs)
  {
    if nbrs == [] then false
    else
      var k := ps[nbrs[0]].kind;
      (if producers then Produces(k, t) else Uses(k, t)) || Served(ps, nbrs[1..], t, producers)
  }

  /** Every kind in ts is served by nbrs. */
  function AllServed(ps: seq<Place>, ts: seq<ResourceKind>, nbrs: seq<nat>, producers: bool): bool
    requires IdsIn(ps, nbrs)
  {
    ts == [] || (Served(ps, nbrs, ts[0], producers) && AllServed(ps, ts[1..], nbrs, producers))
  }

  function HasRequiredConnections(ps: seq<Place>, a: nat): bool
    requires a < |ps| && IdsIn(ps, ps[a].ingoing) && IdsIn(ps, ps[a].outgoing)
  {
    AllServed(ps, UsesList(ps[a].kind), ps[a].ingoing, true)
    && AllServed(ps, ProducesList(ps[a].kind), ps[a].outgoing, false)
  }

  /** Some place among nbrs produces t (producers) or uses t (otherwise), as a quantified statement. */
  ghost predicate Supplied(ps: seq<Place>, nbrs: seq<nat>, t: ResourceKind, producers: bool)
    requires IdsIn(ps, nbrs)
  {
    exists j :: 0 <= j < |nbrs| && (if producers then Produces(ps[nbrs[j]].kind, t) else Uses(ps[nbrs[j]].kind, t))
  }

  lemma {:induction false} ServedIff(ps: seq<Place>, nbrs: seq<nat>, t: ResourceKind, producers: bool)
    requires IdsIn(ps, nbrs)
    ensures Served(ps, nbrs, t, producers) <==> Supplied(ps, nbrs, t, producers)
  {
    if nbrs != [] {
      ServedIff(ps, nbrs[1..], t, producers);
      if Served(ps, nbrs[1..], t, producers) {
        var j :| 0 <= j < |nbrs[1..]| && (if producers then Produces(ps[nbrs[1..][j]].kind, t) else Uses(ps[nbrs[1..][j]].kind, t));
        assert nbrs[1..][j] == nbrs[j + 1];
      }
      if Supplied(ps, nbrs, t, producers) {
        var j :| 0 <= j < |nbrs| && (if producers then Produces(ps[nbrs[j]].kind, t) else Uses(ps[nbrs[j]].kind, t));
        if j > 0 {
          assert nbrs[1..][j - 1] == nbrs[j];
        }
      }
    }
  }

  lemma {:induction false} AllServedIff(ps: seq<Place>, ts: seq<ResourceKind>, nbrs: seq<nat>, producers: bool)
    requires IdsIn(ps, nbrs)
    ensures AllServed(ps, ts, nbrs, producers) <==>
      forall t :: t in ts ==> Supplied(ps, nbrs, t, producers)
  {
    if ts != [] {
      AllServedIff(ps, ts[1..], nbrs, producers);
      ServedIff(ps, nbrs, ts[0], producers);
      if forall t :: t in ts ==> Supplied(ps, nbrs, t, producers) {
        forall t | t in ts[1..] ensures Supplied(ps, nbrs, t, producers) {
          var i :| 0 <= i < |ts[1..]| && ts[1..][i] == t;
          assert ts[i + 1] == t;
        }
      }
      if AllServed(ps, ts, nbrs, producers) {
        forall t | t in ts ensures Supplied(ps, nbrs, t, producers) {
          var i :| 0 <= i < |ts| && ts[i] == t;
          if i > 0 {
            assert ts[1..][i - 1] == t;
          }
        }
      }
    }
  }

  /**
   * A place has its required connections iff every kind it uses comes from
   * some ingoing neighbour that produces it, and every kind it produces goes
   * to some outgoing neighbour that uses it.
   */
  lemma HasRequiredConnectionsIff(ps: seq<Place>, a: nat)
    requires a < |ps| && IdsIn(ps, ps[a].ingoing) && IdsIn(ps, ps[a].outgoing)
    ensures HasRequiredConnections(ps, a) <==>
      (forall t :: Uses(ps[a].kind, t) ==> Supplied(ps, ps[a].ingoing, t, true))
      && (forall t :: Produces(ps[a].kind, t) ==> Supplied(ps, ps[a].outgoing, t, false))
  {
    AllServedIff(ps, UsesList(ps[a].kind), ps[a].ingoing, true);
    AllServedIff(ps, ProducesList(ps[a].kind), ps[a].outgoing, false);
  }

  /** A Factory fed by a Road and delivering to that Road and a Magazine has what it needs; alone it has not. */
  lemma FactoryConnections()
    ensures var road := NewPlace(Road, 0, 0.0, 0.0).(ingoing := [1], outgoing := [1]);
      var factory := NewPlace(Factory, 1, 0.0, 0.0).(ingoing := [0], outgoing := [0, 2]);
      var magazine := NewPlace(Magazine, 2, 0.0, 0.0).(ingoing := [1]);
      HasRequiredConnections([road, factory, magazine], 1)
      && !HasRequiredConnections([factory.(ingoing := [], outgoing := [])], 0)
  {
    var road := NewPlace(Road, 0, 0.0, 0.0).(ingoing := [1], outgoing := [1]);
    var factory := NewPlace(Factory, 1, 0.0, 0.0).(ingoing := [0], outgoing := [0, 2]);
    var magazine := NewPlace(Magazine, 2, 0.0, 0.0).(ingoing := [1]);
    var ps := [road, factory, magazine];
    assert Served(ps, [0, 2], ProductKind, false) by {
      assert Served(ps, [0, 2][1..], ProductKind, false);
    }
  }

  // ---- moving resources: the total stock ----

  /** Every resource held anywhere in the arena. */
  function Stock(ps: seq<Place>): multiset<Resource> {
    if ps == [] then multiset{} else Stock(ps[..|ps| - 1]) + multiset(ps[|ps| - 1].resources)
  }

  /** The stock of two arenas side by side is the sum of their stocks. */
  lemma {:induction false} StockAppend(a: seq<Place>, b: seq<Place>)
    ensures Stock(a + b) == Stock(a) + Stock(b)
    decreases |b|
  {
    if b == [] {
      assert a + b == a;
    } else {
      var init := b[..|b| - 1];
      assert (a + b)[..|a + b| - 1] == a + init;
      StockAppend(a, init);
    }
  }

  /** Replacing the place at i swaps its buffer for the new one in the total stock. */
  lemma StockUpdate(ps: seq<Place>, i: nat, p: Place)
    requires i < |ps|
    ensures Stock(ps[i := p]) + multiset(ps[i].resources) == Stock(ps) + multiset(p.resources)
  {
    var pre, post := ps[..i], ps[i + 1..];
    assert ps == (pre + [ps[i]]) + post;
    assert ps[i := p] == (pre + [p]) + post;
    StockAppend(pre + [ps[i]], post);
    StockAppend(pre + [p], post);
    StockAppend(pre, [ps[i]]);
    StockAppend(pre, [p]);
    assert [ps[i]][..0] == [] && [p][..0] == [];
    var old_, new_ := multiset(ps[i].resources), multiset(p.resources);
    forall e ensures (Stock(pre) + new_ + Stock(post) + old_)[e] == (Stock(pre) + old_ + Stock(post) + new_)[e] {
    }
  }

  // ---- place_resource (units.py:624-630) ----

  /**
   * `container.place_resource(node)`: the first resource of the container that
   * the node accepts moves to the end of the node's buffer; false if none.
   */
  function PlaceResourceSpec(ps: seq<Place>, c: nat, n: nat): (r: (seq<Place>, bool))
    requires c < |ps| && n < |ps| && !IsNode(ps[c].kind) && IsNode(ps[n].kind)
    ensures SameShape(ps, r.0)
  {
    match FirstAccepted(ps[c].resources, ps[n].kind)
    case None => (ps, false)
    case Some(i) =>
      var res := ps[c].resources[i];
      (ps[n := ps[n].(resources := Insert(ps[n].kind, ps[n].resources, res).inventory)]
         [c := ps[c].(resources := RemoveAt(ps[c].resources, i))], true)
  }

  lemma MultisetCancel<T>(a: multiset<T>, b: multiset<T>, m: multiset<T>)
    requires a + m == b + m
    ensures a == b
  {
    forall x ensures a[x] == b[x] {
      assert (a + m)[x] == (b + m)[x];
    }
  }

  /** Moving r out of the buffer of c (leaving cres) and onto the end of the buffer of n keeps the total stock. */
  lemma MoveKeepsStock(ps: seq<Place>, c: nat, n: nat, cres: seq<Resource>, r: Resource)
    requires c < |ps| && n < |ps| && c != n
    requires multiset(cres) + multiset{r} == multiset(ps[c].resources)
    ensures Stock(ps[n := ps[n].(resources := ps[n].resources + [r])][c := ps[c].(resources := cres)]) == Stock(ps)
  {
    var node := ps[n].(resources := ps[n].resources + [r]);
    var ps1 := ps[n := node];
    var container := ps[c].(resources := cres);
    var qs := ps1[c := container];
    StockUpdate(ps, n, node);
    StockUpdate(ps1, c, container);
    assert ps1[c] == ps[c];
    assert multiset(node.resources) == multiset(ps[n].resources) + multiset{r};
    MultisetCancel(Stock(ps1), Stock(ps) + multiset{r}, multiset(ps[n].resources));
    MultisetCancel(Stock(qs), Stock(ps), multiset(ps[c].resources));
  }

  /** place_resource succeeds iff the container holds something the node accepts, and otherwise changes nothing. */
  lemma PlaceResourceAvailable(ps: seq<Place>, c: nat, n: nat)
    requires c < |ps| && n < |ps| && !IsNode(ps[c].kind) && IsNode(ps[n].kind)
    ensures var (qs, ok) := PlaceResourceSpec(ps, c, n);
      (ok <==> exists j :: 0 <= j < |ps[c].resources| && Uses(ps[n].kind, KindOf(ps[c].resources[j])))
      && (!ok ==> qs == ps)
  {
  }

  /**
   * A successful place_resource moves one resource the node accepts out of
   * the container and onto the end of the node's buffer; no other place
   * changes and the total stock is unchanged.
   */
  lemma PlaceResourceMoves(ps: seq<Place>, c: nat, n: nat)
    requires c < |ps| && n < |ps| && !IsNode(ps[c].kind) && IsNode(ps[n].kind)
    requires PlaceResourceSpec(ps, c, n).1
    ensures var qs := PlaceResourceSpec(ps, c, n).0;
      var m := |ps[n].resources|;
      |qs[n].resources| == m + 1
      && qs[n].resources[..m] == ps[n].resources
      && Uses(ps[n].kind, KindOf(qs[n].resources[m]))
      && multiset(qs[c].resources) + multiset{qs[n].resources[m]} == multiset(ps[c].resources)
      && (forall x :: 0 <= x < |ps| && x != c && x != n ==> qs[x] == ps[x])
      && Stock(qs) == Stock(ps)
  {
    var i := PlaceResourceChoice(ps, c, n);
    var res := ps[c].resources[i];
    var m := |ps[n].resources|;
    var qs := ps[n := ps[n].(resources := ps[n].resources + [res])][c := ps[c].(resources := RemoveAt(ps[c].resources, i))];
    assert qs[n].resources[..m] == ps[n].resources;
    MoveKeepsStock(ps, c, n, RemoveAt(ps[c].resources, i), res);
  }

  /** The first resource of the container that the node accepts is the one place_resource moves. */
  lemma PlaceResourceFound(ps: seq<Place>, c: nat, n: nat, i: nat)
    requires c < |ps| && n < |ps| && !IsNode(ps[c].kind) && IsNode(ps[n].kind)
    requires i < |ps[c].resources| && Uses(ps[n].kind, KindOf(ps[c].resources[i]))
    requires forall j :: 0 <= j < i ==> !Uses(ps[n].kind, KindOf(ps[c].resources[j]))
    ensures PlaceResourceSpec(ps, c, n)
      == (ps[n := ps[n].(resources := ps[n].resources + [ps[c].resources[i]])]
            [c := ps[c].(resources := RemoveAt(ps[c].resources, i))], true)
  {
    var o := FirstAccepted(ps[c].resources, ps[n].kind);
    assert o == Some(i);
    assert Insert(ps[n].kind, ps[n].resources, ps[c].resources[i]).inventory == ps[n].resources + [ps[c].resources[i]];
  }

  /** The resource a successful place_resource moves, and the arena it leaves. */
  lemma PlaceResourceChoice(ps: seq<Place>, c: nat, n: nat) returns (i: nat)
    requires c < |ps| && n < |ps| && !IsNode(ps[c].kind) && IsNode(ps[n].kind)
    requires PlaceResourceSpec(ps, c, n).1
    ensures i < |ps[c].resources| && Uses(ps[n].kind, KindOf(ps[c].resources[i]))
    ensures PlaceResourceSpec(ps, c, n).0
      == ps[n := ps[n].(resources := ps[n].resources + [ps[c].resources[i]])]
           [c := ps[c].(resources := RemoveAt(ps[c].resources, i))]
  {
    i := FirstAccepted(ps[c].resources, ps[n].kind).value;
    assert Insert(ps[n].kind, ps[n].resources, ps[c].resources[i]).inventory == ps[n].resources + [ps[c].resources[i]];
  }

  // ---- pulling from ingoing containers (units.py:413-418, 450-455, 486-498, 535-546) ----

  const Containers: set<PlaceKind> := {Magazine, Barn, Road}

  /**
   * `for place in nbrs: if isinstance(place, sources) and place.place_resource(node): break`,
   * with the arena after the loop and whether a resource moved.
   */
  function Pull(ps: seq<Place>, n: nat, nbrs: seq<nat>, sources: set<PlaceKind>): (r: (seq<Place>, bool))
    requires n < |ps| && IsNode(ps[n].kind) && IdsIn(ps, nbrs)
    requires forall k :: k in sources ==> !IsNode(k)
    ensures SameShape(ps, r.0)
    decreases |nbrs|
  {
    if nbrs == [] then (ps, false)
    else
      var c := nbrs[0];
      if ps[c].kind in sources && PlaceResourceSpec(ps, c, n).1 then PlaceResourceSpec(ps, c, n)
      else Pull(ps, n, nbrs[1..], sources)
  }

  /** Some container of a source kind among nbrs holds something node n accepts. */
  predicate CanPull(ps: seq<Place>, n: nat, nbrs: seq<nat>, sources: set<PlaceKind>)
    requires n < |ps| && IdsIn(ps, nbrs)
  {
    exists j, i :: 0 <= j < |nbrs| && 0 <= i < |ps[nbrs[j]].resources|
      && ps[nbrs[j]].kind in sources && Uses(ps[n].kind, KindOf(ps[nbrs[j]].resources[i]))
  }

  /**
   * A pull moves a resource iff one is available from a source neighbour; a
   * pull that moves nothing changes nothing; one that succeeds appends one
   * resource the node accepts, changes only the node and one of nbrs, and
   * keeps the total stock.
   */
  lemma {:induction false} PullMoves(ps: seq<Place>, n: nat, nbrs: seq<nat>, sources: set<PlaceKind>)
    requires n < |ps| && IsNode(ps[n].kind) && IdsIn(ps, nbrs)
    requires forall k :: k in sources ==> !IsNode(k)
    ensures var (qs, ok) := Pull(ps, n, nbrs, sources);
      (ok <==> CanPull(ps, n, nbrs, sources))
      && (!ok ==> qs == ps)
      && (ok ==> |qs[n].resources| == |ps[n].resources| + 1
                 && qs[n].resources[..|ps[n].resources|] == ps[n].resources
                 && Uses(ps[n].kind, KindOf(qs[n].resources[|ps[n].resources|])))
      && (forall x :: 0 <= x < |ps| && x != n && x !in nbrs ==> qs[x] == ps[x])
      && Stock(qs) == Stock(ps)
    decreases |nbrs|
  {
    if nbrs != [] {
      var c := nbrs[0];
      CanPullCons(ps, n, nbrs, sources);
      if ps[c].kind in sources {
        PlaceResourceAvailable(ps, c, n);
      }
      if ps[c].kind in sources && PlaceResourceSpec(ps, c, n).1 {
        PlaceResourceMoves(ps, c, n);
      } else {
        PullMoves(ps, n, nbrs[1..], sources);
      }
    }
  }

  /** A pull is possible from nbrs iff it is possible from its head or from its tail. */
  lemma CanPullCons(ps: seq<Place>, n: nat, nbrs: seq<nat>, sources: set<PlaceKind>)
    requires n < |ps| && IdsIn(ps, nbrs) && nbrs != []
    ensures IdsIn(ps, nbrs[1..])
    ensures CanPull(ps, n, nbrs, sources)
      <==> (ps[nbrs[0]].kind in sources
            && exists i :: 0 <= i < |ps[nbrs[0]].resources| && Uses(ps[n].kind, KindOf(ps[nbrs[0]].resources[i])))
           || CanPull(ps, n, nbrs[1..], sources)
  {
    assert IdsIn(ps, nbrs[1..]);
    if CanPull(ps, n, nbrs, sources) {
      var j, i :| 0 <= j < |nbrs| && 0 <= i < |ps[nbrs[j]].resources|
        && ps[nbrs[j]].kind in sources && Uses(ps[n].kind, KindOf(ps[nbrs[j]].resources[i]));
      if j > 0 {
        assert nbrs[1..][j - 1] == nbrs[j];
      }
    }
    if CanPull(ps, n, nbrs[1..], sources) {
      var j, i :| 0 <= j < |nbrs[1..]| && 0 <= i < |ps[nbrs[1..][j]].resources|
        && ps[nbrs[1..][j]].kind in sources && Uses(ps[n].kind, KindOf(ps[nbrs[1..][j]].resources[i]));
      assert nbrs[j + 1] == nbrs[1..][j];
    }
  }

  // ---- get_resources (units.py:413-418, 450-455, 486-498, 535-546) ----

  /** Factory and Field `get_resources`: pull from any ingoing container only when empty; ready when holding a Worker. */
  function WorkshopGet(ps: seq<Place>, n: nat): (r: (seq<Place>, bool))
    requires n < |ps| && IsNode(ps[n].kind) && IdsIn(ps, ps[n].ingoing)
    ensures SameShape(ps, r.0)
  {
    var pulled := if |ps[n].resources| == 0 then Pull(ps, n, ps[n].ingoing, Containers).0 else ps;
    (pulled, Count(pulled[n].resources, WorkerKind) > 0)
  }

  /**
   * Flat `get_resources`: without a Product it pulls one from a Magazine; with
   * Products but no Worker it pulls a Worker from a Road and, unless
   * `stopDraw` (the draw exceeding 0.4) or it then holds two Workers, a second
   * one. The verdict uses the counts taken before pulling.
   */
  function FlatGet(ps: seq<Place>, n: nat, stopDraw: bool): (r: (seq<Place>, bool))
    requires n < |ps| && IsNode(ps[n].kind) && IdsIn(ps, ps[n].ingoing)
    ensures SameShape(ps, r.0)
  {
    var p := ps[n];
    var products, workers := Count(p.resources, ProductKind), Count(p.resources, WorkerKind);
    var pulled :=
      if products == 0 then Pull(ps, n, p.ingoing, {Magazine}).0
      else if workers == 0 then
        var first := Pull(ps, n, p.ingoing, {Road}).0;
        if stopDraw || Count(first[n].resources, WorkerKind) > 1 then first
        else Pull(first, n, p.ingoing, {Road}).0
      else ps;
    (pulled, products == 1 && (workers == 1 || workers == 2))
  }

  /**
   * Diner `get_resources`: Food from a Barn when it has none, then a Worker
   * from a Road when it has none; the verdict uses the counts before pulling.
   */
  function DinerGet(ps: seq<Place>, n: nat): (r: (seq<Place>, bool))
    requires n < |ps| && IsNode(ps[n].kind) && IdsIn(ps, ps[n].ingoing)
    ensures SameShape(ps, r.0)
  {
    var p := ps[n];
    var food, workers := Count(p.resources, FoodKind), Count(p.resources, WorkerKind);
    var fed := if food == 0 then Pull(ps, n, p.ingoing, {Barn}).0 else ps;
    var staffed := if workers == 0 then Pull(fed, n, p.ingoing, {Road}).0 else fed;
    (staffed, food > 0 && workers > 0)
  }

  /** `node.get_resources()`: the arena after the pulls, and whether the node is ready to work. */
  function GetSpec(ps: seq<Place>, n: nat, stopDraw: bool): (r: (seq<Place>, bool))
    requires n < |ps| && IsNode(ps[n].kind) && IdsIn(ps, ps[n].ingoing)
    ensures SameShape(ps, r.0)
  {
    match ps[n].kind
    case Factory | Field => WorkshopGet(ps, n)
    case Flat => FlatGet(ps, n, stopDraw)
    case Diner => DinerGet(ps, n)
  }

  /**
   * qs came from ps by moving resources from n's ingoing neighbours to the end
   * of n's buffer: the total stock is the same, n's old buffer is a prefix of
   * its new one, and places that are neither n nor its ingoing neighbours are
   * unchanged.
   */
  ghost predicate Gathered(ps: seq<Place>, qs: seq<Place>, n: nat)
    requires n < |ps| && SameShape(ps, qs)
  {
    && Stock(qs) == Stock(ps)
    && |ps[n].resources| <= |qs[n].resources|
    && qs[n].resources[..|ps[n].resources|] == ps[n].resources
    && (forall x :: 0 <= x < |ps| && x != n && x !in ps[n].ingoing ==> qs[x] == ps[x])
  }

  lemma GatheredTrans(ps: seq<Place>, qs: seq<Place>, rs: seq<Place>, n: nat)
    requires n < |ps| && SameShape(ps, qs) && SameShape(qs, rs)
    requires Gathered(ps, qs, n) && Gathered(qs, rs, n)
    ensures SameShape(ps, rs) && Gathered(ps, rs, n)
  {
    assert rs[n].resources[..|ps[n].resources|] == rs[n].resources[..|qs[n].resources|][..|ps[n].resources|];
  }

  lemma PullGathers(ps: seq<Place>, n: nat, sources: set<PlaceKind>)
    requires n < |ps| && IsNode(ps[n].kind) && IdsIn(ps, ps[n].ingoing)
    requires forall k :: k in sources ==> !IsNode(k)
    ensures Gathered(ps, Pull(ps, n, ps[n].ingoing, sources).0, n)
  {
    PullMoves(ps, n, ps[n].ingoing, sources);
  }

  lemma FlatGetGathers(ps: seq<Place>, n: nat, stopDraw: bool)
    requires n < |ps| && IsNode(ps[n].kind) && IdsIn(ps, ps[n].ingoing)
    ensures Gathered(ps, FlatGet(ps, n, stopDraw).0, n)
  {
    var p := ps[n];
    var r := FlatGet(ps, n, stopDraw).0;
    if Count(p.resources, ProductKind) == 0 {
      PullGathers(ps, n, {Magazine});
      assert r == Pull(ps, n, p.ingoing, {Magazine}).0;
    } else if Count(p.resources, WorkerKind) == 0 {
      PullGathers(ps, n, {Road});
      var first := Pull(ps, n, p.ingoing, {Road}).0;
      if stopDraw || Count(first[n].resources, WorkerKind) > 1 {
        assert r == first;
      } else {
        assert first[n].ingoing == p.ingoing && first[n].kind == p.kind;
        PullGathers(first, n, {Road});
        var second := Pull(first, n, p.ingoing, {Road}).0;
        assert r == second;
        GatheredTrans(ps, first, second, n);
      }
    } else {
      assert r == ps && ps[n].resources[..|ps[n].resources|] == ps[n].resources;
    }
  }

  lemma DinerGetGathers(ps: seq<Place>, n: nat)
    requires n < |ps| && IsNode(ps[n].kind) && IdsIn(ps, ps[n].ingoing)
    ensures Gathered(ps, DinerGet(ps, n).0, n)
  {
    var p := ps[n];
    var fed := if Count(p.resources, FoodKind) == 0 then Pull(ps, n, p.ingoing, {Barn}).0 else ps;
    if Count(p.resources, FoodKind) == 0 {
      PullGathers(ps, n, {Barn});
    } else {
      assert ps[n].resources[..|ps[n].resources|] == ps[n].resources;
    }
    assert Gathered(ps, fed, n) && fed[n].ingoing == p.ingoing && fed[n].kind == p.kind;
    if Count(p.resources, WorkerKind) == 0 {
      PullGathers(fed, n, {Road});
      var staffed := Pull(fed, n, p.ingoing, {Road}).0;
      GatheredTrans(ps, fed, staffed, n);
      assert DinerGet(ps, n).0 == staffed;
    } else {
      assert DinerGet(ps, n).0 == fed;
    }
  }

  /**
   * get_resources only moves resources from the node's ingoing neighbours to
   * the end of the node's buffer: it keeps the total stock, the node's buffer
   * keeps its old contents as a prefix, and places that are neither the node
   * nor one of its ingoing neighbours do not change.
   */
  lemma GetConserves(ps: seq<Place>, n: nat, stopDraw: bool)
    requires n < |ps| && IsNode(ps[n].kind) && IdsIn(ps, ps[n].ingoing)
    ensures Gathered(ps, GetSpec(ps, n, stopDraw).0, n)
  {
    match ps[n].kind
    case Factory | Field => PullGathers(ps, n, Containers);
    case Flat => FlatGetGathers(ps, n, stopDraw);
    case Diner => DinerGetGathers(ps, n);
  }

  /** A Flat or Diner that had to pull something is never ready in the same call. */
  lemma PullingMeansNotReady(ps: seq<Place>, n: nat, stopDraw: bool)
    requires n < |ps| && IdsIn(ps, ps[n].ingoing)
    requires ps[n].kind == Flat || ps[n].kind == Diner
    requires GetSpec(ps, n, stopDraw).0 != ps
    ensures !GetSpec(ps, n, stopDraw).1
  {
  }

  /** An empty Factory none of whose ingoing containers holds a Worker stays as it is and is not ready. */
  lemma FactoryStarves(ps: seq<Place>, n: nat, stopDraw: bool)
    requires n < |ps| && ps[n].kind == Factory && IdsIn(ps, ps[n].ingoing) && ps[n].resources == []
    requires forall j, i :: 0 <= j < |ps[n].ingoing| && 0 <= i < |ps[ps[n].ingoing[j]].resources|
               ==> !ps[ps[n].ingoing[j]].resources[i].Worker?
    ensures GetSpec(ps, n, stopDraw) == (ps, false)
  {
    PullMoves(ps, n, ps[n].ingoing, Containers);
  }

  // ---- Node.update (units.py:365-370) ----

  /** `_working` unset, nothing waiting, and the cooldown over. */
  predicate Ready(p: Place, now: real) {
    !p.working && !p.hasWaiting && p.nextAvailable < now
  }

  /**
   * `node.update()`: when ready it gets resources, and if those suffice runs
   * its production step (synchronously here) with the given draws.
   */
  function NodeUpdateSpec(ps: seq<Place>, n: nat, now: real, accident: nat -> bool, delta: real, stopDraw: bool): (qs: seq<Place>)
    requires n < |ps| && IsNode(ps[n].kind) && IdsIn(ps, ps[n].ingoing)
    ensures SameShape(ps, qs)
  {
    if !Ready(ps[n], now) then ps
    else
      var (got, ok) := GetSpec(ps, n, stopDraw);
      if ok then got[n := Used(got[n], accident, delta)] else got
  }

  /** A node that starts production is working or waiting afterwards, so it cannot start again before delivering. */
  lemma NoRestartBeforeDelivery(ps: seq<Place>, n: nat, now: real, accident: nat -> bool, delta: real, stopDraw: bool, later: real)
    requires n < |ps| && IsNode(ps[n].kind) && IdsIn(ps, ps[n].ingoing)
    requires Ready(ps[n], now) && GetSpec(ps, n, stopDraw).1
    ensures !Ready(NodeUpdateSpec(ps, n, now, accident, delta, stopDraw)[n], later)
  {
  }

  // ---- Container.update (units.py:376-386, 632-635) ----

  /** `node.give_resources(container)` applied to the arena when n is a Node; nothing otherwise. */
  function GiveStep(ps: seq<Place>, n: nat, c: nat, now: real): (qs: seq<Place>)
    requires n < |ps| && c < |ps| && !IsNode(ps[c].kind)
    ensures SameShape(ps, qs)
  {
    if IsNode(ps[n].kind) then
      var gave := Give(ps[n], ps[c], now);
      ps[n := gave.0][c := gave.1]
    else ps
  }

  /** `container.update()`: each ingoing neighbour in turn gives to the container. */
  function GiveAll(ps: seq<Place>, c: nat, nbrs: seq<nat>, now: real): (qs: seq<Place>)
    requires c < |ps| && !IsNode(ps[c].kind) && IdsIn(ps, nbrs)
    ensures SameShape(ps, qs)
  {
    if nbrs == [] then ps
    else
      var last := |nbrs| - 1;
      var before := GiveAll(ps, c, nbrs[..last], now);
      GiveStep(before, nbrs[last], c, now)
  }

  lemma StockUpdateTwo(ps: seq<Place>, n: nat, c: nat, p: Place, q: Place)
    requires n < |ps| && c < |ps| && n != c
    ensures Stock(ps[n := p][c := q]) + (multiset(ps[n].resources) + multiset(ps[c].resources))
         == Stock(ps) + (multiset(p.resources) + multiset(q.resources))
  {
    var ps1 := ps[n := p];
    StockUpdate(ps, n, p);
    StockUpdate(ps1, c, q);
    assert ps1[c] == ps[c];
    calc {
      Stock(ps1[c := q]) + (multiset(ps[n].resources) + multiset(ps[c].resources));
      (Stock(ps1[c := q]) + multiset(ps1[c].resources)) + multiset(ps[n].resources);
      (Stock(ps1) + multiset(q.resources)) + multiset(ps[n].resources);
      (Stock(ps1) + multiset(ps[n].resources)) + multiset(q.resources);
      (Stock(ps) + multiset(p.resources)) + multiset(q.resources);
    }
  }

  /** What delivery leaves in the two buffers, compared with what they held. */
  lemma GiveBuffers(res: seq<Resource>, ck: PlaceKind, cres: seq<Resource>)
    ensures ck != Road ==>
      multiset(Kept(res, ck)) + multiset(InsertAll(ck, cres, Handed(res, ck))) == multiset(res) + multiset(cres)
    ensures |Kept(res, ck)| + |InsertAll(ck, cres, Handed(res, ck))| <= |res| + |cres|
  {
    KeptHandedPartition(res, ck);
    InsertAllStores(ck, cres, Handed(res, ck));
    if ck != Road {
      GiveConserves(res, ck, cres);
    }
    assert |multiset(Kept(res, ck)) + multiset(Handed(res, ck))| == |multiset(res)|;
  }

  /** A place that is not a Node, or a Node with nothing waiting, gives nothing. */
  lemma GiveStepIdle(ps: seq<Place>, n: nat, c: nat, now: real)
    requires n < |ps| && c < |ps| && !IsNode(ps[c].kind)
    requires !IsNode(ps[n].kind) || !ps[n].hasWaiting
    ensures GiveStep(ps, n, c, now) == ps
  {
    if IsNode(ps[n].kind) {
      assert ps[n := ps[n]][c := ps[c]] == ps;
    }
  }

  lemma GiveStepKeeps(ps: seq<Place>, n: nat, c: nat, now: real)
    requires n < |ps| && c < |ps| && !IsNode(ps[c].kind) && ps[c].kind != Road
    requires IsNode(ps[n].kind) && ps[n].hasWaiting
    ensures Stock(GiveStep(ps, n, c, now)) == Stock(ps)
  {
    var gave := Give(ps[n], ps[c], now);
    var ck := ps[c].kind;
    var res := ps[n].resources;
    var cres := ps[c].resources;
    var qs := ps[n := gave.0][c := gave.1];
    assert GiveStep(ps, n, c, now) == qs;
    assert gave.0.resources == Kept(res, ck);
    assert gave.1.resources == InsertAll(ck, cres, Handed(res, ck));
    StockUpdateTwo(ps, n, c, gave.0, gave.1);
    GiveBuffers(res, ck, cres);
    MultisetCancel(Stock(qs), Stock(ps), multiset(res) + multiset(cres));
  }

  lemma GiveStepShrinks(ps: seq<Place>, n: nat, c: nat, now: real)
    requires n < |ps| && c < |ps| && !IsNode(ps[c].kind)
    requires IsNode(ps[n].kind) && ps[n].hasWaiting
    ensures |Stock(GiveStep(ps, n, c, now))| <= |Stock(ps)|
  {
    var gave := Give(ps[n], ps[c], now);
    var ck := ps[c].kind;
    var res := ps[n].resources;
    var cres := ps[c].resources;
    var qs := ps[n := gave.0][c := gave.1];
    assert GiveStep(ps, n, c, now) == qs;
    assert |gave.0.resources| + |gave.1.resources| <= |res| + |cres| by {
      GiveBuffers(res, ck, cres);
    }
    StockUpdateTwo(ps, n, c, gave.0, gave.1);
    var before := multiset(res) + multiset(cres);
    var after := multiset(gave.0.resources) + multiset(gave.1.resources);
    assert |Stock(qs) + before| == |Stock(ps) + after|;
    assert |before| == |res| + |cres|;
    assert |after| == |gave.0.resources| + |gave.1.resources|;
  }

  /**
   * Delivery into a Magazine or Barn keeps the total stock; delivery into a
   * Road never increases the number of resources (a Worker can die on it).
   */
  lemma GiveStepStock(ps: seq<Place>, n: nat, c: nat, now: real)
    requires n < |ps| && c < |ps| && !IsNode(ps[c].kind)
    ensures ps[c].kind != Road ==> Stock(GiveStep(ps, n, c, now)) == Stock(ps)
    ensures |Stock(GiveStep(ps, n, c, now))| <= |Stock(ps)|
  {
    if IsNode(ps[n].kind) && ps[n].hasWaiting {
      if ps[c].kind != Road {
        GiveStepKeeps(ps, n, c, now);
      }
      GiveStepShrinks(ps, n, c, now);
    } else {
      GiveStepIdle(ps, n, c, now);
    }
  }

  lemma {:induction false} GiveAllStock(ps: seq<Place>, c: nat, nbrs: seq<nat>, now: real)
    requires c < |ps| && !IsNode(ps[c].kind) && IdsIn(ps, nbrs)
    ensures ps[c].kind != Road ==> Stock(GiveAll(ps, c, nbrs, now)) == Stock(ps)
    ensures |Stock(GiveAll(ps, c, nbrs, now))| <= |Stock(ps)|
  {
    if nbrs != [] {
      var last := |nbrs| - 1;
      GiveAllStock(ps, c, nbrs[..last], now);
      GiveStepStock(GiveAll(ps, c, nbrs[..last], now), nbrs[last], c, now);
    }
  }
}
