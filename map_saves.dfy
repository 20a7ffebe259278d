/**
 * The saved form of a map (map.py `json` and `load_json`) as functions over
 * the arena: the renumbering that saving performs, the records it returns,
 * and the arena that loading rebuilds from records in two passes, with the
 * round trip between the two.
 */
module MapSaves {
  import opened Wrappers
  import opened Seqs
  import opened Resources
  import opened Places
  import opened Graph

  /** Every outgoing link of a listed place leads to a listed place. */
  predicate OutClosed(ps: seq<Place>, order: seq<nat>)
    requires IdsIn(ps, order)
  {
    forall i, y {:trigger y in ps[order[i]].outgoing} :: 0 <= i < |order| && y in ps[order[i]].outgoing ==> y in order
  }

  // ---- json (map.py:174-185) ----

  /** `for i, p in enumerate(self._places): p.set_index(i)` */
  function Renumber(ps: seq<Place>, order: seq<nat>): (qs: seq<Place>)
    requires IdsIn(ps, order)
    ensures |qs| == |ps|
    decreases |order|
  {
    if order == [] then ps
    else
      var n := |order| - 1;
      var before := Renumber(ps, order[..n]);
      before[order[n] := before[order[n]].(index := n)]
  }

  /**
   * Renumbering gives the place at position i of the list the index i,
   * changes nothing else about it, and leaves unlisted places alone.
   */
  lemma {:induction false} RenumberSpec(ps: seq<Place>, order: seq<nat>)
    requires IdsIn(ps, order) && NoDup(order)
    ensures SameShape(ps, Renumber(ps, order))
    ensures forall i :: 0 <= i < |order| ==> Renumber(ps, order)[order[i]] == ps[order[i]].(index := i)
    ensures forall x :: 0 <= x < |ps| && x !in order ==> Renumber(ps, order)[x] == ps[x]
    decreases |order|
  {
    if order != [] {
      var n := |order| - 1;
      var init := order[..n];
      assert NoDup(init) by {
        forall a, b | 0 <= a < b < |init| ensures init[a] != init[b] {
          assert init[a] == order[a] && init[b] == order[b];
        }
      }
      RenumberSpec(ps, init);
      forall i | 0 <= i < n ensures order[i] != order[n] && init[i] == order[i] {
      }
      assert forall x :: x in init ==> x in order;
    }
  }

  /** The place listed i-th gets the index i. */
  lemma {:induction false} RenumberAt(ps: seq<Place>, order: seq<nat>, i: nat)
    requires IdsIn(ps, order) && NoDup(order) && i < |order|
    ensures Renumber(ps, order)[order[i]] == ps[order[i]].(index := i)
  {
    RenumberSpec(ps, order);
  }

  /** `[c.index for c in ids]` */
  function IndicesOf(ps: seq<Place>, ids: seq<nat>): (r: seq<int>)
    requires IdsIn(ps, ids)
    ensures |r| == |ids| && forall k :: 0 <= k < |ids| ==> r[k] == ps[ids[k]].index
  {
    seq(|ids|, k requires 0 <= k < |ids| => ps[ids[k]].index)
  }

  /** The record `place.json()` gives for place id. */
  function SavedPlace(ps: seq<Place>, id: nat): PlaceJson
    requires Wf(ps) && id < |ps|
  {
    WfIds(ps, id);
    PlaceJsonOf(ps[id], IndicesOf(ps, ps[id].ingoing), IndicesOf(ps, ps[id].outgoing))
  }

  /** The list `Map.json()` returns, after the renumbering, for the places listed in order. */
  function Saved(ps: seq<Place>, order: seq<nat>): (js: seq<PlaceJson>)
    requires Wf(ps) && IdsIn(ps, order)
    ensures |js| == |order|
    decreases |order|
  {
    if order == [] then []
    else Saved(ps, order[..|order| - 1]) + [SavedPlace(ps, order[|order| - 1])]
  }

  /** Record i is the record of the place listed i-th. */
  lemma {:induction false} SavedAt(ps: seq<Place>, order: seq<nat>, i: nat)
    requires Wf(ps) && IdsIn(ps, order) && i < |order|
    ensures Saved(ps, order)[i] == SavedPlace(ps, order[i])
    decreases |order|
  {
    if i < |order| - 1 {
      SavedAt(ps, order[..|order| - 1], i);
    }
  }

  /**
   * Record t carries index t and its `out` list holds, in order, the list
   * positions of the outgoing neighbours of the t-th listed place.
   */
  predicate RecordNumbered(js: seq<PlaceJson>, ps: seq<Place>, order: seq<nat>, t: nat)
    requires IdsIn(ps, order) && |js| == |order| && t < |order|
  {
    && js[t].index == t
    && |js[t].out| == |ps[order[t]].outgoing|
    && forall k :: 0 <= k < |js[t].out| ==>
         0 <= js[t].out[k] < |order| && order[js[t].out[k]] == ps[order[t]].outgoing[k]
  }

  /** Every record is numbered by its list position. */
  predicate Numbered(js: seq<PlaceJson>, ps: seq<Place>, order: seq<nat>)
    requires IdsIn(ps, order) && |js| == |order|
  {
    forall t {:trigger RecordNumbered(js, ps, order, t)} :: 0 <= t < |order| ==> RecordNumbered(js, ps, order, t)
  }

  /** After the renumbering, the saved records are numbered by list position. */
  lemma {:induction false} SavedNumbering(ps: seq<Place>, order: seq<nat>)
    requires Wf(ps) && IdsIn(ps, order) && NoDup(order) && OutClosed(ps, order)
    ensures Wf(Renumber(ps, order))
    ensures Numbered(Saved(Renumber(ps, order), order), ps, order)
  {
    var rs := Renumber(ps, order);
    RenumberSpec(ps, order);
    SameShapeWf(ps, rs);
    var js := Saved(rs, order);
    forall i | 0 <= i < |order| ensures RecordNumbered(js, ps, order, i) {
      var id := order[i];
      SavedAt(rs, order, i);
      WfIds(rs, id);
      forall k | 0 <= k < |js[i].out|
        ensures 0 <= js[i].out[k] < |order| && order[js[i].out[k]] == ps[id].outgoing[k]
      {
        var y := ps[id].outgoing[k];
        assert y in ps[id].outgoing;
        var p := IndexOf(order, y);
        assert rs[order[p]] == ps[order[p]].(index := p);
        assert js[i].out[k] == rs[y].index;
      }
    }
  }

  // ---- load_json (map.py:187-199) ----

  /** A record whose class name and resources all decode. */
  predicate Decodes(j: PlaceJson) {
    KindFromName(j.typeName).Some? && DecodeAll(j.resources).Ok?
  }

  /** Every record of js decodes. */
  predicate AllDecode(js: seq<PlaceJson>) {
    forall i {:trigger Decodes(js[i])} :: 0 <= i < |js| ==> Decodes(js[i])
  }

  /** The first n records all decode. */
  predicate DecodesUpTo(js: seq<PlaceJson>, n: nat) {
    n <= |js| && forall k {:trigger Decodes(js[k])} :: 0 <= k < n ==> Decodes(js[k])
  }

  /** The saved indices of the first n records. */
  function JsonIndices(js: seq<PlaceJson>, n: nat): set<int>
    requires n <= |js|
  {
    if n == 0 then {} else JsonIndices(js, n - 1) + {js[n - 1].index}
  }

  /**
   * `index_map` after the first pass has loaded n records, as places at ids
   * base, base + 1, ...: each saved index maps to the last place loaded with it.
   */
  function IndexMap(js: seq<PlaceJson>, n: nat, base: nat): (m: map<int, nat>)
    requires n <= |js|
    ensures m.Keys == JsonIndices(js, n)
    ensures forall i :: 0 <= i < n ==> js[i].index in m
    ensures forall k :: k in m ==> base <= m[k] < base + n
    decreases n
  {
    if n == 0 then map[]
    else IndexMap(js, n - 1, base)[js[n - 1].index := base + n - 1]
  }

  /** With record i saved under index i, index i maps to the i-th loaded place. */
  lemma {:induction false} IndexMapIdentity(js: seq<PlaceJson>, n: nat, base: nat)
    requires n <= |js| && forall i :: 0 <= i < n ==> js[i].index == i
    ensures forall i :: 0 <= i < n ==> i in IndexMap(js, n, base) && IndexMap(js, n, base)[i] == base + i
    decreases n
  {
    if n != 0 {
      IndexMapIdentity(js, n - 1, base);
    }
  }

  /** Every saved index and every `out` entry of the first n records has a place in m. */
  predicate Resolves(js: seq<PlaceJson>, n: nat, m: map<int, nat>)
    requires n <= |js|
  {
    forall i :: 0 <= i < n ==> js[i].index in m && forall k :: 0 <= k < |js[i].out| ==> js[i].out[k] in m
  }

  /** `for index in place_json['out']: place.connect_place(index_map[index])`, as (from, to) pairs. */
  function EntryLinks(j: PlaceJson, m: map<int, nat>): (r: seq<(nat, nat)>)
    requires j.index in m && forall k :: 0 <= k < |j.out| ==> j.out[k] in m
    ensures |r| == |j.out| && forall k :: 0 <= k < |j.out| ==> r[k] == (m[j.index], m[j.out[k]])
  {
    seq(|j.out|, k requires 0 <= k < |j.out| => (m[j.index], m[j.out[k]]))
  }

  /** Every pair the second pass connects for the first n records, in order. */
  function Links(js: seq<PlaceJson>, n: nat, m: map<int, nat>): seq<(nat, nat)>
    requires n <= |js| && Resolves(js, n, m)
    decreases n
  {
    if n == 0 then [] else Links(js, n - 1, m) + EntryLinks(js[n - 1], m)
  }

  /** Entry k of the `out` list of record i is connected. */
  lemma {:induction false} LinkIn(js: seq<PlaceJson>, n: nat, m: map<int, nat>, i: nat, k: nat)
    requires n <= |js| && Resolves(js, n, m) && i < n && k < |js[i].out|
    ensures (m[js[i].index], m[js[i].out[k]]) in Links(js, n, m)
    decreases n
  {
    var e := EntryLinks(js[n - 1], m);
    assert Links(js, n, m) == Links(js, n - 1, m) + e;
    if i < n - 1 {
      LinkIn(js, n - 1, m, i, k);
    } else {
      assert e[k] == (m[js[i].index], m[js[i].out[k]]);
    }
  }

  /** Every connected pair comes from entry k of the `out` list of some record i. */
  lemma {:induction false} LinkSource(js: seq<PlaceJson>, n: nat, m: map<int, nat>, p: (nat, nat))
    returns (i: nat, k: nat)
    requires n <= |js| && Resolves(js, n, m) && p in Links(js, n, m)
    ensures i < n && k < |js[i].out| && p == (m[js[i].index], m[js[i].out[k]])
    decreases n
  {
    var e := EntryLinks(js[n - 1], m);
    assert Links(js, n, m) == Links(js, n - 1, m) + e;
    if p in Links(js, n - 1, m) {
      i, k := LinkSource(js, n - 1, m, p);
    } else {
      var k' :| 0 <= k' < |e| && e[k'] == p;
      i, k := n - 1, k';
    }
  }

  /** A pair is connected iff some record's own place lists the other in its `out`. */
  lemma {:induction false} LinksMembers(js: seq<PlaceJson>, n: nat, m: map<int, nat>)
    requires n <= |js| && Resolves(js, n, m)
    ensures forall i, k :: 0 <= i < n && 0 <= k < |js[i].out| ==> (m[js[i].index], m[js[i].out[k]]) in Links(js, n, m)
    ensures forall p :: p in Links(js, n, m) ==>
      exists i, k :: 0 <= i < n && 0 <= k < |js[i].out| && p == (m[js[i].index], m[js[i].out[k]])
  {
    forall i, k | 0 <= i < n && 0 <= k < |js[i].out|
      ensures (m[js[i].index], m[js[i].out[k]]) in Links(js, n, m)
    {
      LinkIn(js, n, m, i, k);
    }
    forall p | p in Links(js, n, m)
      ensures exists i, k :: 0 <= i < n && 0 <= k < |js[i].out| && p == (m[js[i].index], m[js[i].out[k]])
    {
      var i, k := LinkSource(js, n, m, p);
    }
  }

  /** Both ends of every pair are places of ps. */
  predicate PairsIn(ps: seq<Place>, links: seq<(nat, nat)>) {
    forall k :: 0 <= k < |links| ==> links[k].0 < |ps| && links[k].1 < |ps|
  }

  /** `a.connect_place(b)` for every pair (a, b) in turn. */
  function WireAll(ps: seq<Place>, links: seq<(nat, nat)>): (qs: seq<Place>)
    requires PairsIn(ps, links)
    ensures |qs| == |ps|
    decreases |links|
  {
    if links == [] then ps
    else
      var n := |links| - 1;
      var before := WireAll(ps, links[..n]);
      Connect(before, links[n].0, links[n].1)
  }

  /** An element of a non-empty sequence is in its prefix or is its last element. */
  lemma {:induction false} InSnoc<T>(s: seq<T>, x: T)
    requires s != []
    ensures x in s <==> x in s[..|s| - 1] || x == s[|s| - 1]
  {
    assert s == s[..|s| - 1] + [s[|s| - 1]];
  }

  /** Connecting a to b adds the link from a to b, unless a is b, and no other. */
  lemma {:induction false} ConnectAt(ps: seq<Place>, a: nat, b: nat, x: nat, y: nat)
    requires a < |ps| && b < |ps| && x < |ps|
    ensures y in Connect(ps, a, b)[x].outgoing <==> y in ps[x].outgoing || (a != b && (x, y) == (a, b))
    ensures y in Connect(ps, a, b)[x].ingoing <==> y in ps[x].ingoing || (a != b && (y, x) == (a, b))
  {
  }

  /** Wiring changes nothing but links and keeps the graph well formed. */
  lemma {:induction false} WireWf(ps: seq<Place>, links: seq<(nat, nat)>)
    requires Wf(ps) && PairsIn(ps, links)
    ensures Wf(WireAll(ps, links))
    ensures forall x :: 0 <= x < |ps| ==> Unlinked(WireAll(ps, links)[x]) == Unlinked(ps[x])
    decreases |links|
  {
    if links != [] {
      var n := |links| - 1;
      WireWf(ps, links[..n]);
      ConnectEdges(WireAll(ps, links[..n]), links[n].0, links[n].1);
    }
  }

  /** Two places that agree but for their links have the same kind and buffer. */
  lemma {:induction false} UnlinkedFields(p: Place, q: Place)
    requires Unlinked(p) == Unlinked(q)
    ensures p.kind == q.kind && p.resources == q.resources
  {
    assert p.kind == Unlinked(p).kind && q.kind == Unlinked(q).kind;
  }

  /** Wiring changes nothing about a place but its links. */
  lemma {:induction false} WireKeeps(ps: seq<Place>, links: seq<(nat, nat)>, x: nat)
    requires PairsIn(ps, links) && x < |ps|
    ensures Unlinked(WireAll(ps, links)[x]) == Unlinked(ps[x])
    decreases |links|
  {
    if links != [] {
      WireKeeps(ps, links[..|links| - 1], x);
    }
  }

  /** Wiring adds exactly the links of the pairs between two distinct places. */
  lemma {:induction false} WireAt(ps: seq<Place>, links: seq<(nat, nat)>, x: nat, y: nat)
    requires PairsIn(ps, links) && x < |ps|
    ensures y in WireAll(ps, links)[x].outgoing <==> y in ps[x].outgoing || (x != y && (x, y) in links)
    ensures y in WireAll(ps, links)[x].ingoing <==> y in ps[x].ingoing || (x != y && (y, x) in links)
    decreases |links|
  {
    if links != [] {
      var n := |links| - 1;
      WireAt(ps, links[..n], x, y);
      ConnectAt(WireAll(ps, links[..n]), links[n].0, links[n].1, x, y);
      InSnoc(links, (x, y));
      InSnoc(links, (y, x));
    }
  }

  /**
   * Wiring a list of pairs adds exactly the links of the pairs between two
   * distinct places, changes nothing but links, and keeps the graph well formed.
   */
  lemma {:induction false} WireEdges(ps: seq<Place>, links: seq<(nat, nat)>)
    requires Wf(ps) && PairsIn(ps, links)
    ensures Wf(WireAll(ps, links))
    ensures forall x :: 0 <= x < |ps| ==> Unlinked(WireAll(ps, links)[x]) == Unlinked(ps[x])
    ensures forall x, y :: 0 <= x < |ps| ==>
      (y in WireAll(ps, links)[x].outgoing <==> y in ps[x].outgoing || (x != y && (x, y) in links))
    ensures forall x, y :: 0 <= x < |ps| ==>
      (y in WireAll(ps, links)[x].ingoing <==> y in ps[x].ingoing || (x != y && (y, x) in links))
  {
    WireWf(ps, links);
    forall x, y | 0 <= x < |ps|
      ensures y in WireAll(ps, links)[x].outgoing <==> y in ps[x].outgoing || (x != y && (x, y) in links)
      ensures y in WireAll(ps, links)[x].ingoing <==> y in ps[x].ingoing || (x != y && (y, x) in links)
    {
      WireAt(ps, links, x, y);
    }
  }

  /** How many of the first n records carry index 0; each takes a new serial number when loaded. */
  function Zeros(js: seq<PlaceJson>, n: nat): nat
    requires n <= |js|
    decreases n
  {
    if n == 0 then 0 else Zeros(js, n - 1) + (if js[n - 1].index == 0 then 1 else 0)
  }

  /** The place `Place.from_json(j)` builds from a record that decodes, its saved buffer re-inserted. */
  function FreshPlace(j: PlaceJson, fallbackIndex: int): (p: Place)
    requires Decodes(j)
    ensures PlaceFromJsonAsWritten(j, fallbackIndex) == Ok(p)
    ensures p.ingoing == [] && p.outgoing == []
    ensures KindName(p.kind) == j.typeName && p.resources == Reloaded(p.kind, DecodeAll(j.resources).value)
  {
    PlaceFromJsonAsWritten(j, fallbackIndex).value
  }

  /** The serial number each record falls back to: c plus the index-0 records before it. */
  function Fallbacks(js: seq<PlaceJson>, c: int): (fbs: seq<int>)
    ensures |fbs| == |js|
  {
    seq(|js|, i requires 0 <= i < |js| => c + Zeros(js, i))
  }

  /** The places the first pass creates from the first n records, in order and unlinked. */
  function Fresh(js: seq<PlaceJson>, fbs: seq<int>, n: nat): (r: seq<Place>)
    requires n <= |fbs| && DecodesUpTo(js, n)
    ensures |r| == n && forall i :: 0 <= i < n ==> r[i].ingoing == [] && r[i].outgoing == []
    decreases n
  {
    if n == 0 then [] else Fresh(js, fbs, n - 1) + [FreshPlace(js[n - 1], fbs[n - 1])]
  }

  /** Record i becomes the place at position i, falling back to serial number fbs[i]. */
  lemma {:induction false} FreshAt(js: seq<PlaceJson>, fbs: seq<int>, n: nat, i: nat)
    requires n <= |fbs| && DecodesUpTo(js, n)
    requires i < n
    ensures Fresh(js, fbs, n)[i] == FreshPlace(js[i], fbs[i])
    decreases n
  {
    if i < n - 1 {
      FreshAt(js, fbs, n - 1, i);
    }
  }

  /** Appending places without links keeps the graph well formed. */
  lemma {:induction false} AppendAllUnlinkedWf(ps: seq<Place>, fs: seq<Place>)
    requires Wf(ps) && forall i :: 0 <= i < |fs| ==> fs[i].ingoing == [] && fs[i].outgoing == []
    ensures Wf(ps + fs)
    decreases |fs|
  {
    if fs != [] {
      var n := |fs| - 1;
      AppendAllUnlinkedWf(ps, fs[..n]);
      assert ps + fs == (ps + fs[..n]) + [fs[n]];
      AppendUnlinkedWf(ps + fs[..n], fs[n]);
    } else {
      assert ps + fs == ps;
    }
  }

  /** `load_json` raises no KeyError: every record decodes and every `out` entry names a saved index. */
  predicate Loadable(js: seq<PlaceJson>) {
    && AllDecode(js)
    && (forall i, k :: 0 <= i < |js| && 0 <= k < |js[i].out| ==> js[i].out[k] in JsonIndices(js, |js|))
  }

  /** Every entry of the index map m names one of the first n places. */
  predicate MapsBelow(m: map<int, nat>, n: nat) {
    forall k :: k in m ==> m[k] < n
  }

  /** The pairs the second pass connects through m lie within an arena whose size m stays below. */
  lemma {:induction false} LinksWithin(js: seq<PlaceJson>, m: map<int, nat>, ps: seq<Place>)
    requires Resolves(js, |js|, m) && MapsBelow(m, |ps|)
    ensures PairsIn(ps, Links(js, |js|, m))
  {
    var links := Links(js, |js|, m);
    forall k | 0 <= k < |links| ensures links[k].0 < |ps| && links[k].1 < |ps| {
      assert links[k] in links;
      var i, k' := LinkSource(js, |js|, m, links[k]);
      var a, b := js[i].index, js[i].out[k'];
      assert a in m && b in m;
      assert links[k] == (m[a], m[b]);
    }
  }

  /**
   * The arena ps followed by the places the first pass of `load_json(js)`
   * creates, each with its saved buffer re-inserted, with c the serial counter before.
   */
  function Created(ps: seq<Place>, js: seq<PlaceJson>, c: int): (base: seq<Place>)
    requires AllDecode(js)
    ensures |base| == |ps| + |js|
    ensures forall i :: |ps| <= i < |base| ==> base[i].ingoing == [] && base[i].outgoing == []
  {
    ps + Fresh(js, Fallbacks(js, c), |js|)
  }

  /** The arena base after the second pass of `load_json(js)`, with m the index map the first pass built. */
  function Wired(base: seq<Place>, js: seq<PlaceJson>, m: map<int, nat>): (qs: seq<Place>)
    requires Resolves(js, |js|, m) && MapsBelow(m, |base|)
    ensures |qs| == |base|
  {
    LinksWithin(js, m, base);
    WireAll(base, Links(js, |js|, m))
  }

  /** The arena after `load_json(js)` succeeds on the arena ps, with c the serial counter before. */
  function Loaded(ps: seq<Place>, js: seq<PlaceJson>, c: int): (qs: seq<Place>)
    requires Loadable(js)
    ensures |qs| == |ps| + |js|
  {
    Wired(Created(ps, js, c), js, IndexMap(js, |js|, |ps|))
  }

  /**
   * Loading gives a well-formed arena whose new places carry the records'
   * classes and the records' buffers as re-insertion leaves them.
   */
  lemma {:induction false} LoadedWf(ps: seq<Place>, js: seq<PlaceJson>, c: int)
    requires Wf(ps) && Loadable(js)
    ensures Wf(Loaded(ps, js, c))
    ensures forall i :: 0 <= i < |js| ==> CarriesRecord(Loaded(ps, js, c), |ps|, js, i)
  {
    var f := Fresh(js, Fallbacks(js, c), |js|);
    var base := Created(ps, js, c);
    var m := IndexMap(js, |js|, |ps|);
    AppendAllUnlinkedWf(ps, f);
    assert base == ps + f;
    LinksWithin(js, m, base);
    WireWf(base, Links(js, |js|, m));
    CreatedRecords(ps, js, c);
    forall i | 0 <= i < |js| ensures CarriesRecord(Loaded(ps, js, c), |ps|, js, i) {
      assert CarriesRecord(base, |ps|, js, i);
      WiredKeeps(base, js, m, |ps| + i);
    }
  }

  /**
   * Saving the listed places and loading the records back into the same arena
   * succeeds and gives new places, at ids after the old ones and in list
   * order, of the same kinds, whose outgoing links join exactly the copies of
   * the places the originals linked to. Each copy holds its original's buffer
   * re-inserted, which is the original buffer exactly when that is intact.
   */
  lemma {:induction false} SaveLoadRoundTrip(ps: seq<Place>, order: seq<nat>, c: int)
    requires Wf(ps) && IdsIn(ps, order) && NoDup(order) && OutClosed(ps, order)
    ensures Wf(Renumber(ps, order))
    ensures var rs := Renumber(ps, order);
      var js := Saved(rs, order);
      && Loadable(js)
      && var qs := Loaded(rs, js, c);
      && (forall i :: 0 <= i < |order| ==> KeptAt(qs, ps, order, i))
      && (forall i, j :: 0 <= i < |order| && 0 <= j < |order| ==> LinkedAt(qs, ps, order, i, j))
      && (forall i :: 0 <= i < |order| ==> BufferKept(qs, ps, order, i))
  {
    var rs := Renumber(ps, order);
    SavedNumbering(ps, order);
    var js := Saved(rs, order);
    SavedLoadable(ps, order);
    SavedRecordsHold(ps, order);
    LoadedContents(rs, js, c, ps, order);
    LoadedLinks(rs, js, c, ps, order);
    var qs := Loaded(rs, js, c);
    forall i | 0 <= i < |order| ensures BufferKept(qs, ps, order, i) {
      assert KeptAt(qs, ps, order, i);
      ReloadedIntact(ps[order[i]].kind, ps[order[i]].resources);
    }
  }

  /** The records saved from a map all decode and refer only to saved indices. */
  lemma {:induction false} SavedLoadable(ps: seq<Place>, order: seq<nat>)
    requires Wf(ps) && IdsIn(ps, order) && NoDup(order) && OutClosed(ps, order)
    requires Wf(Renumber(ps, order))
    ensures Loadable(Saved(Renumber(ps, order), order))
  {
    var rs := Renumber(ps, order);
    SavedNumbering(ps, order);
    var js := Saved(rs, order);
    forall i | 0 <= i < |js| ensures Decodes(js[i]) {
      SavedAt(rs, order, i);
      KindNameRoundTrip(rs[order[i]].kind);
      DecodeAllJson(rs[order[i]].resources);
    }
    forall i, k | 0 <= i < |js| && 0 <= k < |js[i].out| ensures js[i].out[k] in JsonIndices(js, |js|) {
      assert RecordNumbered(js, ps, order, i);
      var j := js[i].out[k];
      assert RecordNumbered(js, ps, order, j);
      assert js[j].index in IndexMap(js, |js|, 0);
    }
  }

  /** A place read back from the record of p has the class of p and the buffer of p re-inserted. */
  lemma {:induction false} RecordRestores(p: Place, ins: seq<int>, out: seq<int>, j: PlaceJson, q: Place)
    requires j == PlaceJsonOf(p, ins, out)
    requires KindName(q.kind) == j.typeName && DecodeAll(j.resources).Ok?
    requires q.resources == Reloaded(q.kind, DecodeAll(j.resources).value)
    ensures q.kind == p.kind && q.resources == Reloaded(p.kind, p.resources)
  {
    KindNameRoundTrip(p.kind);
    KindNameRoundTrip(q.kind);
    DecodeAllJson(p.resources);
  }

  /** The second pass leaves the kind and the buffer of every place alone. */
  lemma {:induction false} WiredKeeps(base: seq<Place>, js: seq<PlaceJson>, m: map<int, nat>, x: nat)
    requires Resolves(js, |js|, m) && MapsBelow(m, |base|) && x < |base|
    ensures Wired(base, js, m)[x].kind == base[x].kind && Wired(base, js, m)[x].resources == base[x].resources
  {
    LinksWithin(js, m, base);
    WireKeeps(base, Links(js, |js|, m), x);
    UnlinkedFields(Wired(base, js, m)[x], base[x]);
  }

  /** The place at id n0 + i of base has the class record i names and the buffer it names, re-inserted. */
  predicate CarriesRecord(base: seq<Place>, n0: nat, js: seq<PlaceJson>, i: nat)
    requires n0 + |js| <= |base| && i < |js|
  {
    && KindName(base[n0 + i].kind) == js[i].typeName && DecodeAll(js[i].resources).Ok?
    && base[n0 + i].resources == Reloaded(base[n0 + i].kind, DecodeAll(js[i].resources).value)
  }

  /** The first pass creates from each record a place of the class and with the re-inserted buffer the record names. */
  lemma {:induction false} CreatedRecords(ps: seq<Place>, js: seq<PlaceJson>, c: int)
    requires AllDecode(js)
    ensures forall i :: 0 <= i < |js| ==> CarriesRecord(Created(ps, js, c), |ps|, js, i)
  {
    var fbs := Fallbacks(js, c);
    forall i | 0 <= i < |js| ensures CarriesRecord(Created(ps, js, c), |ps|, js, i) {
      FreshAt(js, fbs, |js|, i);
    }
  }

  /**
   * The place wired at id x from record i, which was saved from place id of
   * rs, has the kind of that place and its buffer re-inserted.
   */
  lemma {:induction false} RestoredAt(base: seq<Place>, js: seq<PlaceJson>, m: map<int, nat>, rs: seq<Place>, x: nat, i: nat, id: nat)
    requires Resolves(js, |js|, m) && MapsBelow(m, |base|) && x < |base| && i < |js|
    requires KindName(base[x].kind) == js[i].typeName && DecodeAll(js[i].resources).Ok?
    requires base[x].resources == Reloaded(base[x].kind, DecodeAll(js[i].resources).value)
    requires Wf(rs) && id < |rs| && js[i] == SavedPlace(rs, id)
    ensures Wired(base, js, m)[x].kind == rs[id].kind
    ensures Wired(base, js, m)[x].resources == Reloaded(rs[id].kind, rs[id].resources)
  {
    WiredKeeps(base, js, m, x);
    WfIds(rs, id);
    RecordRestores(rs[id], IndicesOf(rs, rs[id].ingoing), IndicesOf(rs, rs[id].outgoing), js[i], Wired(base, js, m)[x]);
  }

  /**
   * Record i of js is the record of the place listed i-th in the renumbered
   * arena rs, and that place has the kind and the buffer it has in ps.
   */
  predicate SavedRecord(js: seq<PlaceJson>, rs: seq<Place>, ps: seq<Place>, order: seq<nat>, i: nat)
    requires Wf(rs) && IdsIn(ps, order) && |rs| == |ps| && |js| == |order| && i < |order|
  {
    && js[i] == SavedPlace(rs, order[i])
    && rs[order[i]].kind == ps[order[i]].kind
    && rs[order[i]].resources == ps[order[i]].resources
  }

  predicate SavedRecords(js: seq<PlaceJson>, rs: seq<Place>, ps: seq<Place>, order: seq<nat>)
    requires Wf(rs) && IdsIn(ps, order) && |rs| == |ps| && |js| == |order|
  {
    forall i {:trigger SavedRecord(js, rs, ps, order, i)} :: 0 <= i < |order| ==> SavedRecord(js, rs, ps, order, i)
  }

  /** `Map.json()` saves each listed place, renumbered, as its record. */
  lemma {:induction false} SavedRecordsHold(ps: seq<Place>, order: seq<nat>)
    requires IdsIn(ps, order) && NoDup(order) && Wf(Renumber(ps, order))
    ensures SavedRecords(Saved(Renumber(ps, order), order), Renumber(ps, order), ps, order)
  {
    var rs := Renumber(ps, order);
    forall i: nat | i < |order| ensures SavedRecord(Saved(rs, order), rs, ps, order, i) {
      SavedAt(rs, order, i);
      RenumberAt(ps, order, i);
    }
  }

  /** The place at id |ps| + i of qs has the kind of the place listed i-th in ps and its buffer re-inserted. */
  predicate KeptAt(qs: seq<Place>, ps: seq<Place>, order: seq<nat>, i: nat)
    requires IdsIn(ps, order) && |ps| + |order| <= |qs| && i < |order|
  {
    && qs[|ps| + i].kind == ps[order[i]].kind
    && qs[|ps| + i].resources == Reloaded(ps[order[i]].kind, ps[order[i]].resources)
  }

  /** The place at id |ps| + i of qs holds the buffer of the place listed i-th in ps iff that buffer is intact. */
  predicate BufferKept(qs: seq<Place>, ps: seq<Place>, order: seq<nat>, i: nat)
    requires IdsIn(ps, order) && |ps| + |order| <= |qs| && i < |order|
  {
    qs[|ps| + i].resources == ps[order[i]].resources <==> Intact(ps[order[i]].kind, ps[order[i]].resources)
  }

  /**
   * Wiring the records saved from the places listed in ps, created behind
   * |ps| places of base with their classes and re-inserted buffers, keeps the
   * kind of each listed place and its buffer re-inserted.
   */
  lemma {:induction false} WiredContents(base: seq<Place>, js: seq<PlaceJson>, m: map<int, nat>, rs: seq<Place>, ps: seq<Place>, order: seq<nat>)
    requires Resolves(js, |js|, m) && MapsBelow(m, |base|) && |ps| + |js| <= |base|
    requires Wf(rs) && IdsIn(ps, order) && |rs| == |ps| && |js| == |order| && SavedRecords(js, rs, ps, order)
    requires forall i :: 0 <= i < |js| ==> CarriesRecord(base, |ps|, js, i)
    ensures forall i :: 0 <= i < |order| ==> KeptAt(Wired(base, js, m), ps, order, i)
  {
    forall i: nat | i < |order| ensures KeptAt(Wired(base, js, m), ps, order, i) {
      assert SavedRecord(js, rs, ps, order, i);
      assert CarriesRecord(base, |ps|, js, i);
      RestoredAt(base, js, m, rs, |ps| + i, i, order[i]);
    }
  }

  /** Loading the records saved from a list restores the kind of each listed place and its buffer re-inserted. */
  lemma {:induction false} LoadedContents(rs: seq<Place>, js: seq<PlaceJson>, c: int, ps: seq<Place>, order: seq<nat>)
    requires Wf(rs) && Loadable(js) && IdsIn(ps, order) && |rs| == |ps| && |js| == |order|
    requires SavedRecords(js, rs, ps, order)
    ensures forall i :: 0 <= i < |order| ==> KeptAt(Loaded(rs, js, c), ps, order, i)
  {
    CreatedRecords(rs, js, c);
    WiredContents(Created(rs, js, c), js, IndexMap(js, |js|, |rs|), rs, ps, order);
  }

  /** The records js hold, numbered by list position, the places of a well-formed arena ps listed in order. */
  predicate SavedList(js: seq<PlaceJson>, ps: seq<Place>, order: seq<nat>) {
    && |js| == |order| && Wf(ps) && NoDup(order) && IdsIn(ps, order)
    && Numbered(js, ps, order)
  }

  /** Numbered records, with index t sent to id n0 + t, name only indices the map resolves. */
  lemma {:induction false} NumberedResolves(js: seq<PlaceJson>, m: map<int, nat>, n0: nat, ps: seq<Place>, order: seq<nat>)
    requires SavedList(js, ps, order)
    requires forall t :: 0 <= t < |order| ==> t in m && m[t] == n0 + t
    ensures Resolves(js, |js|, m)
  {
    forall t | 0 <= t < |js| ensures js[t].index in m && forall k :: 0 <= k < |js[t].out| ==> js[t].out[k] in m {
      assert RecordNumbered(js, ps, order, t);
    }
  }

  /**
   * With record t saved under index t and its `out` list holding the list
   * positions of the neighbours of the t-th listed place, and record t loaded
   * at id n0 + t, the second pass connects two loaded places iff the listed
   * places they were saved from were linked.
   */
  lemma {:induction false} NumberedPairs(js: seq<PlaceJson>, m: map<int, nat>, n0: nat, ps: seq<Place>, order: seq<nat>, i: nat, j: nat)
    requires SavedList(js, ps, order) && i < |order| && j < |order|
    requires forall t :: 0 <= t < |order| ==> t in m && m[t] == n0 + t
    requires Resolves(js, |js|, m)
    ensures i != j && (n0 + i, n0 + j) in Links(js, |js|, m) <==> order[j] in ps[order[i]].outgoing
  {
    assert RecordNumbered(js, ps, order, i);
    var out := ps[order[i]].outgoing;
    if i == j {
      assert LinksOk(ps, order[i]);
    } else {
      if order[j] in out {
        var k := IndexOf(out, order[j]);
        var t := js[i].out[k];
        assert order[t] == order[j];
        assert t == j;
        LinkIn(js, |js|, m, i, k);
      }
      if (n0 + i, n0 + j) in Links(js, |js|, m) {
        var i', k := LinkSource(js, |js|, m, (n0 + i, n0 + j));
        assert RecordNumbered(js, ps, order, i');
        assert i' == i;
        var t := js[i'].out[k];
        assert m[t] == n0 + t;
        assert out[k] == order[j];
      }
    }
  }

  /**
   * In the arena wired from records js through the index map m, a loaded
   * place links to another iff the second pass connected them.
   */
  lemma {:induction false} SavedWiring(base: seq<Place>, js: seq<PlaceJson>, m: map<int, nat>, n0: nat, i: nat, j: nat)
    requires Resolves(js, |js|, m) && MapsBelow(m, |base|)
    requires i < |js| && j < |js| && n0 + |js| <= |base| && base[n0 + i].outgoing == []
    ensures n0 + j in Wired(base, js, m)[n0 + i].outgoing <==> i != j && (n0 + i, n0 + j) in Links(js, |js|, m)
  {
    LinksWithin(js, m, base);
    WireAt(base, Links(js, |js|, m), n0 + i, n0 + j);
  }

  /**
   * Wiring numbered records js, whose record t sits unlinked at id n0 + t of
   * base, through an index map that sends index t to id n0 + t links the
   * places at n0 + i and n0 + j iff the places listed i-th and j-th were linked.
   */
  lemma {:induction false} NumberedLinks(base: seq<Place>, js: seq<PlaceJson>, m: map<int, nat>, n0: nat, ps: seq<Place>, order: seq<nat>, i: nat, j: nat)
    requires SavedList(js, ps, order) && Resolves(js, |js|, m)
    requires forall t :: 0 <= t < |order| ==> t in m && m[t] == n0 + t
    requires MapsBelow(m, |base|) && n0 + |js| <= |base|
    requires i < |order| && j < |order| && base[n0 + i].outgoing == []
    ensures n0 + j in Wired(base, js, m)[n0 + i].outgoing <==> order[j] in ps[order[i]].outgoing
  {
    NumberedPairs(js, m, n0, ps, order, i, j);
    SavedWiring(base, js, m, n0, i, j);
  }

  /** The places at ids |ps| + i and |ps| + j of qs are linked iff the places listed i-th and j-th in ps are. */
  predicate LinkedAt(qs: seq<Place>, ps: seq<Place>, order: seq<nat>, i: nat, j: nat)
    requires IdsIn(ps, order) && |ps| + |order| <= |qs| && i < |order| && j < |order|
  {
    |ps| + j in qs[|ps| + i].outgoing <==> order[j] in ps[order[i]].outgoing
  }

  /**
   * Wiring the records saved from the places listed in ps, placed unlinked
   * behind |ps| places of base with index t sent to id |ps| + t, links the
   * copies exactly as the listed places were linked.
   */
  lemma {:induction false} WiredLinks(base: seq<Place>, js: seq<PlaceJson>, m: map<int, nat>, ps: seq<Place>, order: seq<nat>)
    requires SavedList(js, ps, order)
    requires forall t :: 0 <= t < |order| ==> t in m && m[t] == |ps| + t
    requires MapsBelow(m, |base|) && |ps| + |js| <= |base|
    requires forall t :: |ps| <= t < |base| ==> base[t].outgoing == []
    ensures Resolves(js, |js|, m)
    ensures forall i, j :: 0 <= i < |order| && 0 <= j < |order| ==> LinkedAt(Wired(base, js, m), ps, order, i, j)
  {
    NumberedResolves(js, m, |ps|, ps, order);
    forall i: nat, j: nat | i < |order| && j < |order| ensures LinkedAt(Wired(base, js, m), ps, order, i, j) {
      NumberedLinks(base, js, m, |ps|, ps, order, i, j);
    }
  }

  /** Loading numbered records links the loaded places exactly as the listed places they were saved from. */
  lemma {:induction false} LoadedLinks(rs: seq<Place>, js: seq<PlaceJson>, c: int, ps: seq<Place>, order: seq<nat>)
    requires Loadable(js) && |rs| == |ps| && SavedList(js, ps, order)
    ensures forall i, j :: 0 <= i < |order| && 0 <= j < |order| ==> LinkedAt(Loaded(rs, js, c), ps, order, i, j)
  {
    forall t | 0 <= t < |js| ensures js[t].index == t {
      assert RecordNumbered(js, ps, order, t);
    }
    IndexMapIdentity(js, |js|, |rs|);
    WiredLinks(Created(rs, js, c), js, IndexMap(js, |js|, |rs|), ps, order);
  }
}
