/**
 * map.py: the `Map` the player edits. It lists places of the world's arena
 * (by id, in the order of `Map._places`), keeps the three selections of the
 * editor, and builds, connects, disconnects, deletes, saves and loads places.
 */
module SimMap {
  import opened Wrappers
  import opened Seqs
  import opened Resources
  import opened Places
  import opened Graph
  import opened Units
  import opened MapSaves

  // ---- get_place_at (map.py:69-77) ----

  /** The listed place whose footprint holds the point; a later one in the list wins. */
  function PlaceAt(ps: seq<Place>, order: seq<nat>, x: real, y: real): (r: Option<nat>)
    requires IdsIn(ps, order)
    ensures r.Some? ==> r.value in order && PointIn(ps[r.value], x, y)
    ensures r.None? <==> forall i :: 0 <= i < |order| ==> !PointIn(ps[order[i]], x, y)
    decreases |order|
  {
    if order == [] then None
    else
      var n := |order| - 1;
      if PointIn(ps[order[n]], x, y) then Some(order[n])
      else PlaceAt(ps, order[..n], x, y)
  }

  /** In a list without repeats, the place found is the one listed i-th iff it holds the point and no later one does. */
  lemma {:induction false} PlaceAtLastHit(ps: seq<Place>, order: seq<nat>, x: real, y: real, i: nat)
    requires IdsIn(ps, order) && NoDup(order) && i < |order|
    ensures PlaceAt(ps, order, x, y) == Some(order[i]) <==>
      PointIn(ps[order[i]], x, y) && forall j :: i < j < |order| ==> !PointIn(ps[order[j]], x, y)
    decreases |order|
  {
    var n := |order| - 1;
    var init := order[..n];
    assert forall j :: 0 <= j < n ==> init[j] == order[j];
    assert order[n] !in init;
    if PointIn(ps[order[n]], x, y) {
      assert PlaceAt(ps, order, x, y) == Some(order[n]);
      if i < n {
        assert order[i] != order[n];
      }
    } else {
      assert PlaceAt(ps, order, x, y) == PlaceAt(ps, init, x, y);
      if i < n {
        assert NoDup(init);
        PlaceAtLastHit(ps, init, x, y, i);
      }
    }
  }

  // ---- the list after an edit stays closed under outgoing links ----

  /** A new place without links can join the end of the list. */
  lemma OutClosedGrow(ps: seq<Place>, order: seq<nat>, p: Place)
    requires IdsIn(ps, order) && NoDup(order) && OutClosed(ps, order) && p.outgoing == []
    ensures IdsIn(ps + [p], order + [|ps|]) && NoDup(order + [|ps|]) && OutClosed(ps + [p], order + [|ps|])
  {
    var qs, o := ps + [p], order + [|ps|];
    forall i | 0 <= i < |o| ensures forall y :: y in qs[o[i]].outgoing ==> y in o {
      if i < |order| {
        assert qs[o[i]] == ps[order[i]];
      }
    }
  }

  /** A place abandoned at the end of the arena, off the list, keeps the list closed. */
  lemma OutClosedAbandoned(ps: seq<Place>, qs: seq<Place>, order: seq<nat>, j: PlaceJson)
    requires IdsIn(ps, order) && OutClosed(ps, order) && Abandoned(ps, qs, j)
    ensures IdsIn(qs, order) && OutClosed(qs, order)
  {
    forall i | 0 <= i < |order| ensures qs[order[i]] == ps[order[i]] {
      assert qs[..|ps|][order[i]] == qs[order[i]];
    }
  }

  /** Links that only disappear, on the same places, keep the list closed. */
  lemma OutClosedFewer(ps: seq<Place>, qs: seq<Place>, order: seq<nat>)
    requires |qs| == |ps| && IdsIn(ps, order) && OutClosed(ps, order)
    requires forall x, y :: 0 <= x < |ps| && y in qs[x].outgoing ==> y in ps[x].outgoing
    ensures IdsIn(qs, order) && OutClosed(qs, order)
  {
  }

  /** Severing a pair keeps the graph well formed and the list closed. */
  lemma OutClosedSevered(ps: seq<Place>, order: seq<nat>, a: nat, b: nat)
    requires Wf(ps) && a < |ps| && b < |ps| && IdsIn(ps, order) && OutClosed(ps, order)
    ensures Wf(Severed(ps, a, b)) && IdsIn(Severed(ps, a, b), order) && OutClosed(Severed(ps, a, b), order)
  {
    SeveredEdges(ps, a, b);
    OutClosedFewer(ps, Severed(ps, a, b), order);
  }

  /** Connecting any place to a listed place keeps the list closed. */
  lemma OutClosedConnect(ps: seq<Place>, order: seq<nat>, a: nat, b: nat)
    requires IdsIn(ps, order) && OutClosed(ps, order) && a < |ps| && b in order
    ensures b < |ps| && IdsIn(Connect(ps, a, b), order) && OutClosed(Connect(ps, a, b), order)
  {
    ConnectEdges(ps, a, b);
  }

  /** Isolating a place and dropping it from the list keeps the list closed and free of repeats. */
  lemma OutClosedDelete(ps: seq<Place>, order: seq<nat>, p: nat)
    requires Wf(ps) && IdsIn(ps, order) && NoDup(order) && OutClosed(ps, order) && p < |ps|
    ensures IdsIn(Isolate(ps, p), Remove(order, p)) && NoDup(Remove(order, p))
    ensures OutClosed(Isolate(ps, p), Remove(order, p))
  {
    var qs, o := Isolate(ps, p), Remove(order, p);
    IsolateEdges(ps, p);
    forall j | 0 <= j < |o| ensures o[j] < |qs| {
      assert o[j] in o;
    }
    forall i | 0 <= i < |o| ensures forall y :: y in qs[o[i]].outgoing ==> y in o {
      assert o[i] in order;
    }
  }

  /** After `disconnect_all_connections` no place of the arena refers to the deleted place any more. */
  lemma DeletedUnlinked(ps: seq<Place>, order: seq<nat>, p: nat)
    requires Wf(ps) && NoDup(order) && p < |ps|
    ensures p !in Remove(order, p)
    ensures forall x :: 0 <= x < |ps| ==> !Related(Isolate(ps, p)[x], p)
  {
    IsolateEdges(ps, p);
  }

  // ---- load_json (map.py:187-199) ----

  /** The ids base, base + 1, ..., base + n - 1. */
  function Span(base: nat, n: nat): (r: seq<nat>)
    ensures |r| == n && forall k :: 0 <= k < n ==> r[k] == base + k
  {
    if n == 0 then [] else Span(base, n - 1) + [base + n - 1]
  }

  /** done holds the pairs of the first k `out` entries of record j, all of which resolve. */
  predicate PrefixLinks(j: PlaceJson, m: map<int, nat>, k: nat, done: seq<(nat, nat)>) {
    && j.index in m && k <= |j.out| && |done| == k
    && forall t :: 0 <= t < k ==> j.out[t] in m && done[t] == (m[j.index], m[j.out[t]])
  }

  /** Connecting one more listed pair extends the wiring by that pair. */
  lemma WireStep(p0: seq<Place>, done: seq<(nat, nat)>, a: nat, b: nat, ps: seq<Place>, done': seq<(nat, nat)>, ps': seq<Place>)
    requires PairsIn(p0, done) && ps == WireAll(p0, done) && a < |p0| && b < |p0|
    requires done' == done + [(a, b)] && ps' == Connect(ps, a, b)
    ensures PairsIn(p0, done') && ps' == WireAll(p0, done')
  {
    assert done'[..|done|] == done;
  }

  /** One more resolved `out` entry extends the pairs of a record's prefix. */
  lemma PrefixStep(j: PlaceJson, m: map<int, nat>, k: nat, done: seq<(nat, nat)>, done': seq<(nat, nat)>)
    requires PrefixLinks(j, m, k, done) && k < |j.out| && j.out[k] in m
    requires done' == done + [(m[j.index], m[j.out[k]])]
    ensures PrefixLinks(j, m, k + 1, done')
  {
  }

  /** One more record that decodes appends the place it decodes to, with the serial number it falls back to. */
  lemma ArenaStep(ps0: seq<Place>, c0: int, js: seq<PlaceJson>, n: nat, ps: seq<Place>, c: int, ps': seq<Place>)
    requires DecodesUpTo(js, n) && n < |js| && Decodes(js[n])
    requires ps == ps0 + Fresh(js, Fallbacks(js, c0), n) && c == c0 + Zeros(js, n)
    requires ps' == ps + [FreshPlace(js[n], c)]
    ensures DecodesUpTo(js, n + 1) && ps' == ps0 + Fresh(js, Fallbacks(js, c0), n + 1)
  {
    var fbs, p := Fallbacks(js, c0), FreshPlace(js[n], c);
    assert fbs[n] == c;
    assert DecodesUpTo(js, n + 1);
    assert Fresh(js, fbs, n + 1) == Fresh(js, fbs, n) + [p];
    assert (ps0 + Fresh(js, fbs, n)) + [p] == ps0 + (Fresh(js, fbs, n) + [p]);
  }

  /**
   * One more record lists the next id, maps its saved index to that id, and
   * takes a serial number when it was saved with index 0.
   */
  lemma ListStep(base: nat, c0: int, js: seq<PlaceJson>, n: nat, o: seq<nat>, m: map<int, nat>, c: int,
                 id: nat, o': seq<nat>, m': map<int, nat>, c': int)
    requires n < |js| && o == Span(base, n) && m == IndexMap(js, n, base) && c == c0 + Zeros(js, n)
    requires id == base + n && o' == o + [id] && m' == m[js[n].index := id]
    requires c' == c + if js[n].index == 0 then 1 else 0
    ensures o' == Span(base, n + 1) && m' == IndexMap(js, n + 1, base) && c' == c0 + Zeros(js, n + 1)
  {
    IndexMapStep(js, n, base);
  }

  /**
   * The state after the first pass of `load_json` has taken n records, from
   * arena ps0 and serial counter c0: the places, the listed ids, the index map
   * and the counter.
   */
  predicate FirstPass(ps0: seq<Place>, c0: int, js: seq<PlaceJson>, n: nat,
                      ps: seq<Place>, o: seq<nat>, m: map<int, nat>, c: int) {
    && DecodesUpTo(js, n)
    && ps == ps0 + Fresh(js, Fallbacks(js, c0), n)
    && o == Span(|ps0|, n) && m == IndexMap(js, n, |ps0|) && c == c0 + Zeros(js, n)
  }

  /** Creating the place of one more record that decodes takes the first pass one record further. */
  lemma FirstPassStep(ps0: seq<Place>, c0: int, js: seq<PlaceJson>, n: nat,
                      ps: seq<Place>, o: seq<nat>, m: map<int, nat>, c: int,
                      ps': seq<Place>, o': seq<nat>, m': map<int, nat>, c': int)
    requires FirstPass(ps0, c0, js, n, ps, o, m, c) && n < |js| && Decodes(js[n])
    requires ps' == ps + [FreshPlace(js[n], c)] && o' == o + [|ps|] && m' == m[js[n].index := |ps|]
    requires c' == c + if js[n].index == 0 then 1 else 0
    ensures FirstPass(ps0, c0, js, n + 1, ps', o', m', c')
  {
    ArenaStep(ps0, c0, js, n, ps, c, ps');
    ListStep(|ps0|, c0, js, n, o, m, c, |ps|, o', m', c');
  }

  /** Taking one more record maps its saved index to the next place. */
  lemma IndexMapStep(js: seq<PlaceJson>, n: nat, base: nat)
    requires n < |js|
    ensures IndexMap(js, n + 1, base) == IndexMap(js, n, base)[js[n].index := base + n]
  {
  }

  /** Wiring a list of pairs and then another is wiring the two lists one after the other. */
  lemma {:induction false} WireAllAppend(ps: seq<Place>, a: seq<(nat, nat)>, b: seq<(nat, nat)>)
    requires PairsIn(ps, a) && PairsIn(ps, b)
    ensures PairsIn(ps, a + b) && PairsIn(WireAll(ps, a), b)
    ensures WireAll(WireAll(ps, a), b) == WireAll(ps, a + b)
    decreases |b|
  {
    if b != [] {
      var n := |b| - 1;
      assert (a + b)[..|a| + n] == a + b[..n];
      assert PairsIn(ps, b[..n]);
      WireAllAppend(ps, a, b[..n]);
    } else {
      assert a + b == a;
    }
  }

  /** One more record whose own and `out` indices are all in m keeps the records resolving. */
  lemma ResolvesStep(js: seq<PlaceJson>, n: nat, m: map<int, nat>)
    requires n < |js| && Resolves(js, n, m)
    requires js[n].index in m && forall t :: 0 <= t < |js[n].out| ==> js[n].out[t] in m
    ensures Resolves(js, n + 1, m)
  {
  }

  /** Records that resolve up to n' resolve up to any n before it. */
  lemma ResolvesPrefix(js: seq<PlaceJson>, n: nat, n': nat, m: map<int, nat>)
    requires n <= n' <= |js|
    ensures Resolves(js, n', m) ==> Resolves(js, n, m)
  {
  }

  /** The pairs of one more record follow those of the records before it. */
  lemma LinksStep(js: seq<PlaceJson>, n: nat, m: map<int, nat>)
    requires n < |js| && Resolves(js, n + 1, m)
    ensures Resolves(js, n, m)
    ensures Links(js, n + 1, m) == Links(js, n, m) + EntryLinks(js[n], m)
  {
  }

  /** The pairs of a record that resolves lie within an arena the map stays below. */
  lemma EntryLinksIn(ps: seq<Place>, j: PlaceJson, m: map<int, nat>)
    requires j.index in m && (forall k :: 0 <= k < |j.out| ==> j.out[k] in m) && MapsBelow(m, |ps|)
    ensures PairsIn(ps, EntryLinks(j, m))
  {
    var e := EntryLinks(j, m);
    forall k | 0 <= k < |e| ensures e[k].0 < |ps| && e[k].1 < |ps| {
      assert e[k] == (m[j.index], m[j.out[k]]);
      var key := j.out[k];
      assert key in m;
      assert MapsBelow(m, |ps|);
      assert m[key] < |ps|;
    }
  }

  /** The arena ps after the second pass has connected the first n records, record by record. */
  function WireEntries(ps: seq<Place>, js: seq<PlaceJson>, n: nat, m: map<int, nat>): (qs: seq<Place>)
    requires n <= |js| && Resolves(js, n, m) && MapsBelow(m, |ps|)
    ensures |qs| == |ps|
    decreases n
  {
    if n == 0 then ps
    else
      var before := WireEntries(ps, js, n - 1, m);
      var e := EntryLinks(js[n - 1], m);
      EntryLinksIn(before, js[n - 1], m);
      WireAll(before, e)
  }

  /** Connecting record by record is connecting every pair of `Links` in turn. */
  lemma {:induction false} WireEntriesAll(ps: seq<Place>, js: seq<PlaceJson>, n: nat, m: map<int, nat>)
    requires n <= |js| && Resolves(js, n, m) && MapsBelow(m, |ps|)
    ensures PairsIn(ps, Links(js, n, m)) && WireEntries(ps, js, n, m) == WireAll(ps, Links(js, n, m))
    decreases n
  {
    if n > 0 {
      WireEntriesAll(ps, js, n - 1, m);
      var e := EntryLinks(js[n - 1], m);
      EntryLinksIn(ps, js[n - 1], m);
      WireAllAppend(ps, Links(js, n - 1, m), e);
    }
  }

  /**
   * With the index map the first pass builds, the records resolve exactly
   * when every `out` entry names a saved index; with every record decoding,
   * that is `load_json` raising no KeyError.
   */
  lemma {:induction false} ResolvesLoadable(js: seq<PlaceJson>, base: nat)
    requires AllDecode(js)
    ensures Resolves(js, |js|, IndexMap(js, |js|, base)) <==> Loadable(js)
  {
    var m := IndexMap(js, |js|, base);
    assert m.Keys == JsonIndices(js, |js|);
  }

  /** `Map`: the listed places, ids into the arena of `world`, and the three selections. */
  class Map {
    const world: World
    var order: seq<nat>
    var buildType: Option<PlaceKind>
    var resourceType: Option<ResourceKind>
    var selected: Option<nat>

    /**
     * The arena is well formed, the list names distinct places of it, and
     * every outgoing link of a listed place leads to a listed place (what
     * saving needs); the selected place, which may have been deleted from the
     * list since, is still a place of the arena.
     */
    ghost predicate Valid()
      reads this, world
    {
      && world.Valid()
      && IdsIn(world.places, order) && NoDup(order) && OutClosed(world.places, order)
      && (selected.Some? ==> selected.value < |world.places|)
    }

    /** `Map()`: no places and nothing selected. The previews it draws are not modelled. */
    constructor (w: World)
      requires w.Valid()
      ensures world == w && order == []
      ensures buildType == None && resourceType == None && selected == None
      ensures Valid()
    {
      world := w;
      order := [];
      buildType := None;
      resourceType := None;
      selected := None;
    }

    /** `select_build_type(t)`: the class to build; the other two selections are cleared. */
    method SelectBuildType(t: PlaceKind)
      requires Valid()
      modifies this
      ensures Valid()
      ensures buildType == Some(t) && resourceType == None && selected == None && order == old(order)
    {
      buildType := Some(t);
      resourceType := None;
      selected := None;
    }

    /** `select_resource_type(r)`: the resource to place; the other two selections are cleared. */
    method SelectResourceType(r: ResourceKind)
      requires Valid()
      modifies this
      ensures Valid()
      ensures resourceType == Some(r) && buildType == None && selected == None && order == old(order)
    {
      resourceType := Some(r);
      buildType := None;
      selected := None;
    }

    /** `select_building_at(x, y)`: the place at the point becomes the selection; a miss changes nothing. */
    method SelectBuildingAt(x: real, y: real)
      requires Valid()
      modifies this
      ensures Valid()
      ensures var hit := PlaceAt(world.places, order, x, y);
        selected == (if hit.Some? then hit else old(selected))
      ensures buildType == old(buildType) && resourceType == old(resourceType) && order == old(order)
    {
      var hit := GetPlaceAt(x, y);
      if hit.Some? {
        selected := hit;
      }
    }

    /** `deselect_selections()`. */
    method DeselectSelections()
      requires Valid()
      modifies this
      ensures Valid()
      ensures buildType == None && resourceType == None && selected == None && order == old(order)
    {
      resourceType := None;
      buildType := None;
      selected := None;
    }

    /** `get_place_at(x, y)`: the listed places in turn, the last that holds the point kept. */
    method GetPlaceAt(x: real, y: real) returns (r: Option<nat>)
      requires IdsIn(world.places, order)
      ensures r == PlaceAt(world.places, order, x, y)
    {
      r := None;
      var i := 0;
      while i < |order|
        invariant 0 <= i <= |order|
        invariant r == PlaceAt(world.places, order[..i], x, y)
      {
        if PointIn(world.places[order[i]], x, y) {
          r := Some(order[i]);
        }
        assert order[..i + 1][..i] == order[..i];
        i := i + 1;
      }
      assert order[..i] == order;
    }

    /** `disconnect_from_selection(x, y)`: the selected place disconnects from the place at the point, if both exist. */
    method DisconnectFromSelection(x: real, y: real)
      requires Valid()
      modifies world
      ensures Valid()
      ensures var hit := PlaceAt(old(world.places), order, x, y);
        world.places == if selected.Some? && hit.Some? then Severed(old(world.places), selected.value, hit.value)
                        else old(world.places)
      ensures world.counter == old(world.counter)
    {
      if selected.Some? {
        var hit := GetPlaceAt(x, y);
        if hit.Some? {
          ghost var ps := world.places;
          var a, b := selected.value, hit.value;
          assert LinksOk(ps, a) && LinksOk(ps, b);
          OutClosedSevered(ps, order, a, b);
          world.DisconnectPlace(a, b);
        }
      }
    }

    /**
     * `delete_place_at(x, y)`: the place at the point drops all its links
     * and leaves the list; it stays in the arena, and stays selected if it was.
     */
    method DeletePlaceAt(x: real, y: real)
      requires Valid()
      modifies this, world
      ensures Valid()
      ensures var hit := PlaceAt(old(world.places), old(order), x, y);
        if hit.Some? then world.places == Isolate(old(world.places), hit.value) && order == Remove(old(order), hit.value)
        else world.places == old(world.places) && order == old(order)
      ensures buildType == old(buildType) && resourceType == old(resourceType) && selected == old(selected)
      ensures world.counter == old(world.counter)
    {
      var hit := GetPlaceAt(x, y);
      if hit.Some? {
        var p := hit.value;
        OutClosedDelete(world.places, order, p);
        world.DisconnectAllConnections(p);
        order := Remove(order, p);
      }
    }

    /** `can_build()`: a Python class or place object is always true, so this is whether anything is selected. */
    method CanBuild() returns (b: bool)
      ensures b <==> buildType.Some? || selected.Some? || resourceType.Some?
    {
      b := buildType.Some? || selected.Some? || resourceType.Some?;
    }

    /**
     * `build(x, y)`, by the first selection set: a new place of the selected
     * class centred on the point joins the list; or a new resource of the
     * selected kind is offered to the place at the point; or the selected
     * place connects to the place at the point.
     */
    method Build(x: real, y: real)
      requires Valid()
      modifies this, world
      ensures Valid()
      ensures buildType == old(buildType) && resourceType == old(resourceType) && selected == old(selected)
      ensures buildType.Some? ==>
        && world.places == old(world.places) + [NewPlace(buildType.value, old(world.counter), x, y)]
        && order == old(order) + [|old(world.places)|]
        && world.counter == old(world.counter) + 1
      ensures buildType.None? ==> order == old(order) && world.counter == old(world.counter)
      ensures buildType.None? && resourceType.Some? ==>
        var hit := PlaceAt(old(world.places), order, x, y);
        world.places == if hit.None? then old(world.places) else
          var p := old(world.places)[hit.value];
          old(world.places)[hit.value := p.(resources := Places.Insert(p.kind, p.resources, NewResource(resourceType.value)).inventory)]
      ensures buildType.None? && resourceType.None? ==>
        var hit := PlaceAt(old(world.places), order, x, y);
        world.places == if selected.Some? && hit.Some? then Connect(old(world.places), selected.value, hit.value)
                        else old(world.places)
    {
      if buildType.Some? {
        OutClosedGrow(world.places, order, NewPlace(buildType.value, world.counter, x, y));
        var id := world.AddPlace(buildType.value, x, y);
        order := order + [id];
      } else if resourceType.Some? {
        var hit := GetPlaceAt(x, y);
        if hit.Some? {
          ghost var ps := world.places;
          var _ := world.Insert(hit.value, NewResource(resourceType.value));
          SameShapeWf(ps, world.places);
          OutClosedFewer(ps, world.places, order);
        }
      } else if selected.Some? {
        var hit := GetPlaceAt(x, y);
        if hit.Some? {
          ConnectListed(selected.value, hit.value);
        }
      }
    }

    /** `a.connect_place(b)` with b a listed place. */
    method ConnectListed(a: nat, b: nat)
      requires Valid() && a < |world.places| && b in order
      modifies world
      ensures Valid()
      ensures world.places == Connect(old(world.places), a, b) && world.counter == old(world.counter)
    {
      OutClosedConnect(world.places, order, a, b);
      world.ConnectPlace(a, b);
    }

    // ---- json (map.py:174-185) ----

    /**
     * `json()`: every listed place first takes its list position as index,
     * then each gives its record, so the records are numbered 0, 1, ... in
     * list order and their link lists name list positions.
     */
    method Json() returns (js: seq<PlaceJson>)
      requires Valid()
      modifies world
      ensures Valid()
      ensures world.places == Renumber(old(world.places), order) && world.counter == old(world.counter)
      ensures js == Saved(world.places, order)
      ensures forall t :: 0 <= t < |js| ==> js[t].index == t
    {
      ghost var ps := world.places;
      NumberPlaces();
      js := Records();
      SavedNumbering(ps, order);
      forall t | 0 <= t < |js| ensures js[t].index == t {
        assert RecordNumbered(js, ps, order, t);
      }
    }

    /** `for i, p in enumerate(self._places): p.set_index(i)` */
    method NumberPlaces()
      requires Valid()
      modifies world
      ensures Valid()
      ensures world.places == Renumber(old(world.places), order) && world.counter == old(world.counter)
    {
      ghost var ps := world.places;
      var i := 0;
      while i < |order|
        invariant 0 <= i <= |order|
        invariant world.Valid() && world.counter == old(world.counter)
        invariant world.places == Renumber(ps, order[..i])
      {
        assert order[..i + 1][..i] == order[..i];
        world.SetIndex(order[i], i);
        i := i + 1;
      }
      assert order[..i] == order;
      RenumberSpec(ps, order);
      OutClosedFewer(ps, world.places, order);
    }

    /** `[p.json() for p in self._places]`, the indices already set. */
    method Records() returns (js: seq<PlaceJson>)
      requires Valid()
      ensures js == Saved(world.places, order)
    {
      js := [];
      var i := 0;
      while i < |order|
        invariant 0 <= i <= |order|
        invariant js == Saved(world.places, order[..i])
      {
        assert order[..i + 1][..i] == order[..i];
        js := js + [SavedPlace(world.places, order[i])];
        i := i + 1;
      }
      assert order[..i] == order;
    }

    /**
     * The inner loop of the second pass of `load_json`: the place of record j
     * connects to the place of each of its `out` entries in turn, up to the
     * first entry that is not a saved index (a KeyError).
     */
    method ConnectOuts(j: PlaceJson, m: map<int, nat>) returns (ok: bool)
      requires Valid() && j.index in m && forall k :: k in m ==> m[k] in order
      modifies world
      ensures Valid()
      ensures ok <==> forall t :: 0 <= t < |j.out| ==> j.out[t] in m
      ensures ok ==> PairsIn(old(world.places), EntryLinks(j, m)) && world.places == WireAll(old(world.places), EntryLinks(j, m))
      ensures world.counter == old(world.counter)
    {
      ghost var p0 := world.places;
      ghost var done: seq<(nat, nat)> := [];
      var a := m[j.index];
      var k := 0;
      while k < |j.out|
        invariant 0 <= k <= |j.out|
        invariant Valid() && |world.places| == |p0| && world.counter == old(world.counter)
        invariant PrefixLinks(j, m, k, done)
        invariant PairsIn(p0, done) && world.places == WireAll(p0, done)
      {
        var index := j.out[k];
        if index !in m {
          return false;
        }
        var b := m[index];
        ghost var ps := world.places;
        assert b < |p0|;
        ConnectListed(a, b);
        WireStep(p0, done, a, b, ps, done + [(a, b)], world.places);
        PrefixStep(j, m, k, done, done + [(a, b)]);
        done := done + [(a, b)];
        k := k + 1;
      }
      assert done == EntryLinks(j, m);
      return true;
    }

    /**
     * One step of the first pass of `load_json`: the place `Place.from_json`
     * builds from record i is created and listed, and its saved index is
     * mapped to it; a record that does not decode is a KeyError, `ok` false,
     * which may leave a half-filled place in the arena, off the list.
     */
    method CreatePlace(js: seq<PlaceJson>, i: nat, m: map<int, nat>, ghost ps0: seq<Place>, ghost c0: int) returns (ok: bool, m': map<int, nat>)
      requires Valid() && i < |js| && FirstPass(ps0, c0, js, i, world.places, order, m, world.counter)
      modifies this, world
      ensures Valid()
      ensures buildType == old(buildType) && resourceType == old(resourceType) && selected == old(selected)
      ensures ok <==> Decodes(js[i])
      ensures ok ==> FirstPass(ps0, c0, js, i + 1, world.places, order, m', world.counter)
    {
      ghost var ps, o, c := world.places, order, world.counter;
      var r := world.LoadPlace(js[i]);
      if r.Err? {
        if world.places != ps {
          OutClosedAbandoned(ps, world.places, order, js[i]);
        }
        return false, m;
      }
      ghost var p := FreshPlace(js[i], c);
      OutClosedGrow(ps, order, p);
      order := order + [r.value];
      m' := m[js[i].index := r.value];
      FirstPassStep(ps0, c0, js, i, ps, o, m, c, world.places, order, m', world.counter);
      return true, m';
    }

    /**
     * The first pass of `load_json`: a place per record, in order, with each
     * saved index mapped to the last place created under it; a record that
     * does not decode stops it with a KeyError, which is `ok` false here.
     */
    method CreatePlaces(js: seq<PlaceJson>) returns (ok: bool, m: map<int, nat>)
      requires Valid() && order == []
      modifies this, world
      ensures Valid()
      ensures buildType == old(buildType) && resourceType == old(resourceType) && selected == old(selected)
      ensures ok <==> AllDecode(js)
      ensures ok ==> FirstPass(old(world.places), old(world.counter), js, |js|, world.places, order, m, world.counter)
    {
      ghost var ps0, c0 := world.places, world.counter;
      m := map[];
      var i := 0;
      while i < |js|
        invariant 0 <= i <= |js| && Valid()
        invariant FirstPass(ps0, c0, js, i, world.places, order, m, world.counter)
        invariant buildType == old(buildType) && resourceType == old(resourceType) && selected == old(selected)
      {
        ok, m := CreatePlace(js, i, m, ps0, c0);
        if !ok {
          return false, m;
        }
        i := i + 1;
        assert 0 <= i <= |js|;
      }
      assert i == |js|;
      ok := true;
    }

    /**
     * Record i of the second pass of `load_json`: its place is connected to
     * the places its `out` entries name through the index map m; an entry that
     * is not in m is a KeyError, `ok` false, and then not every record resolves.
     */
    method ConnectEntry(js: seq<PlaceJson>, i: nat, m: map<int, nat>, ghost created: seq<Place>) returns (ok: bool)
      requires Valid() && i < |js| && Resolves(js, i, m) && MapsBelow(m, |created|)
      requires (forall k :: k in m ==> m[k] in order) && js[i].index in m
      requires world.places == WireEntries(created, js, i, m)
      modifies world
      ensures Valid() && world.counter == old(world.counter)
      ensures ok <==> Resolves(js, i + 1, m)
      ensures !ok ==> !Resolves(js, |js|, m)
      ensures ok ==> world.places == WireEntries(created, js, i + 1, m)
    {
      ok := ConnectOuts(js[i], m);
      ResolvesPrefix(js, i + 1, |js|, m);
      if ok {
        ResolvesStep(js, i, m);
      }
    }

    /**
     * The second pass of `load_json`: each record's place is connected to the
     * places its `out` entries name through the index map m, record by record;
     * an entry that is not in m stops it with a KeyError, which is `ok` false.
     */
    method ConnectAll(js: seq<PlaceJson>, m: map<int, nat>) returns (ok: bool)
      requires Valid() && forall k :: k in m ==> m[k] in order
      requires forall i :: 0 <= i < |js| ==> js[i].index in m
      modifies world
      ensures Valid()
      ensures ok <==> Resolves(js, |js|, m)
      ensures ok ==> PairsIn(old(world.places), Links(js, |js|, m)) && world.places == WireAll(old(world.places), Links(js, |js|, m))
      ensures world.counter == old(world.counter)
    {
      ghost var created := world.places;
      assert MapsBelow(m, |created|);
      var i := 0;
      while i < |js|
        invariant 0 <= i <= |js| && Valid() && Resolves(js, i, m)
        invariant world.places == WireEntries(created, js, i, m) && world.counter == old(world.counter)
      {
        ok := ConnectEntry(js, i, m, created);
        if !ok {
          return;
        }
        i := i + 1;
        assert 0 <= i <= |js|;
      }
      assert i == |js|;
      WireEntriesAll(created, js, |js|, m);
      ok := true;
    }

    /**
     * `load_json(json)`: the list is cleared; the first pass creates a place
     * per record and the second connects each place to the places its `out`
     * entries name. A record that does not decode or an `out` entry that is
     * not a saved index stops the load with a KeyError, which is `ok` false
     * here.
     */
    method LoadJson(js: seq<PlaceJson>) returns (ok: bool)
      requires Valid()
      modifies this, world
      ensures Valid()
      ensures buildType == old(buildType) && resourceType == old(resourceType) && selected == old(selected)
      ensures ok <==> Loadable(js)
      ensures ok ==>
        && world.places == Loaded(old(world.places), js, old(world.counter))
        && order == Span(|old(world.places)|, |js|)
        && world.counter == old(world.counter) + Zeros(js, |js|)
    {
      order := [];
      var m;
      ok, m := CreatePlaces(js);
      if !ok {
        return;
      }
      ghost var created, base := world.places, |old(world.places)|;
      forall k | k in m
        ensures m[k] in order
      {
        assert order[m[k] - base] == m[k];
      }
      ok := ConnectAll(js, m);
      ResolvesLoadable(js, base);
      if ok {
        assert world.places == WireAll(created, Links(js, |js|, m));
        assert Loaded(old(world.places), js, old(world.counter)) == WireAll(created, Links(js, |js|, m));
      }
    }
  }
}
