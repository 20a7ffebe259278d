/**
 * Place kinds and everything about one place that does not depend on its
 * neighbours: the uses/produces table, the `insert` filters, the per-kind
 * production step and delivery, and the saved record of a place (units.py).
 */
module Places {
  import opened Wrappers
  import opened Seqs
  import opened Resources

  /** The seven concrete place classes; the first four are Nodes, the rest Containers. */
  datatype PlaceKind = Factory | Field | Flat | Diner | Magazine | Barn | Road

  predicate IsNode(k: PlaceKind) {
    k.Factory? || k.Field? || k.Flat? || k.Diner?
  }

  /** The `uses` tuple each constructor passes to Place.__init__. */
  function UsesList(k: PlaceKind): seq<ResourceKind> {
    match k
    case Factory => [WorkerKind]
    case Field => [WorkerKind]
    case Flat => [WorkerKind, ProductKind]
    case Diner => [WorkerKind, FoodKind]
    case Magazine => [ProductKind]
    case Barn => [FoodKind]
    case Road => [WorkerKind]
  }

  /** The `produces` tuple each constructor passes to Place.__init__. */
  function ProducesList(k: PlaceKind): seq<ResourceKind> {
    match k
    case Factory => [WorkerKind, ProductKind]
    case Field => [WorkerKind, FoodKind]
    case Flat => [WorkerKind]
    case Diner => [WorkerKind]
    case Magazine => [ProductKind]
    case Barn => [FoodKind]
    case Road => [WorkerKind]
  }

  predicate Uses(k: PlaceKind, t: ResourceKind) {
    t in UsesList(k)
  }

  predicate Produces(k: PlaceKind, t: ResourceKind) {
    t in ProducesList(k)
  }

  /** A Container stores one resource kind: it uses and produces exactly that kind. */
  lemma ContainerSingleKind(k: PlaceKind)
    requires !IsNode(k)
    ensures |UsesList(k)| == 1 && UsesList(k) == ProducesList(k)
    ensures forall t :: Uses(k, t) <==> Produces(k, t)
  {
  }

  function KindName(k: PlaceKind): string {
    match k
    case Factory => "Factory"
    case Field => "Field"
    case Flat => "Flat"
    case Diner => "Diner"
    case Magazine => "Magazine"
    case Barn => "Barn"
    case Road => "Road"
  }

  /** `CLASS_NAME_MAP_DICT[name]`: None where the source raises a KeyError. */
  function KindFromName(name: string): (o: Option<PlaceKind>)
    ensures o.Some? ==> KindName(o.value) == name
    ensures o.None? ==> forall k :: KindName(k) != name
  {
    if name == "Factory" then Some(Factory)
    else if name == "Field" then Some(Field)
    else if name == "Flat" then Some(Flat)
    else if name == "Diner" then Some(Diner)
    else if name == "Magazine" then Some(Magazine)
    else if name == "Barn" then Some(Barn)
    else if name == "Road" then Some(Road)
    else None
  }

  lemma KindNameRoundTrip(k: PlaceKind)
    ensures KindFromName(KindName(k)) == Some(k)
  {
  }

  /** Side length of a place's square footprint: Nodes are 90, Containers round(60 * 2.1) = 126. */
  function Size(k: PlaceKind): real {
    if IsNode(k) then 90.0 else 126.0
  }

  /**
   * One place object. `index` is the serial number; `x, y` is the top-left
   * corner (`_position`); `ingoing` and `outgoing` hold the arena ids of the
   * neighbours; `hasWaiting` and `nextAvailable` only mean something on a Node.
   */
  datatype Place = Place(
    kind: PlaceKind,
    index: int,
    x: real,
    y: real,
    resources: seq<Resource>,
    ingoing: seq<nat>,
    outgoing: seq<nat>,
    working: bool,
    hasWaiting: bool,
    nextAvailable: real)

  /** A place built with `kind()` and then `set_position((cx, cy))`, which centres it. */
  function NewPlace(k: PlaceKind, index: int, cx: real, cy: real): (p: Place)
    ensures p.kind == k && p.index == index
    ensures p.x + Size(k) / 2.0 == cx && p.y + Size(k) / 2.0 == cy
    ensures p.resources == [] && p.ingoing == [] && p.outgoing == []
    ensures !p.working && !p.hasWaiting && p.nextAvailable == 0.0
  {
    Place(k, index, cx - Size(k) / 2.0, cy - Size(k) / 2.0, [], [], [], false, false, 0.0)
  }

  /** `point_in_place(px, py)`: the footprint, bounds included. */
  predicate PointIn(p: Place, px: real, py: real) {
    !(px < p.x || px > p.x + Size(p.kind) || py < p.y || py > p.y + Size(p.kind))
  }

  // ---- insert (units.py:420-424, 457-461, 502-506, 548-552, 641-671) ----

  const RoadDamagePerWorker: real := 0.02

  /** The boolean `insert` returns and the buffer it leaves. */
  datatype InsertOutcome = InsertOutcome(accepted: bool, inventory: seq<Resource>)

  /**
   * `insert(r)` per kind, as each class filters with isinstance. A Road damages
   * an incoming Worker by 0.02 per resource it already holds, keeps the Worker
   * only if that was not lethal, and reports success either way.
   */
  function Insert(k: PlaceKind, inv: seq<Resource>, r: Resource): (o: InsertOutcome)
    ensures o.accepted <==> Uses(k, KindOf(r))
    ensures !o.accepted ==> o.inventory == inv
    ensures o.accepted && k != Road ==> o.inventory == inv + [r]
    ensures o.accepted && k == Road ==>
      var left := r.viability - RoadDamagePerWorker * |inv| as real;
      (left <= 0.0 ==> o.inventory == inv) && (left > 0.0 ==> o.inventory == inv + [Worker(left)])
  {
    match k
    case Factory | Field =>
      if r.Worker? then InsertOutcome(true, inv + [r]) else InsertOutcome(false, inv)
    case Flat =>
      if r.Worker? || r.Product? then InsertOutcome(true, inv + [r]) else InsertOutcome(false, inv)
    case Diner =>
      if r.Worker? || r.Food? then InsertOutcome(true, inv + [r]) else InsertOutcome(false, inv)
    case Magazine =>
      if r.Product? then InsertOutcome(true, inv + [r]) else InsertOutcome(false, inv)
    case Barn =>
      if r.Food? then InsertOutcome(true, inv + [r]) else InsertOutcome(false, inv)
    case Road =>
      if r.Worker? then
        var d := Damage(r.viability, RoadDamagePerWorker * |inv| as real);
        if d.dead then InsertOutcome(true, inv) else InsertOutcome(true, inv + [Worker(d.viability)])
      else InsertOutcome(false, inv)
  }

  /** Containers accept exactly one kind: Magazine Products, Barn Food, Road Workers. */
  lemma ContainerAcceptsOneKind(r: Resource, inv: seq<Resource>)
    ensures Insert(Magazine, inv, r).accepted <==> r.Product?
    ensures Insert(Barn, inv, r).accepted <==> r.Food?
    ensures Insert(Road, inv, r).accepted <==> r.Worker?
  {
  }

  /**
   * A Road holding n resources damages an (n+1)-th Worker by 0.02 n before
   * taking it; a lethal Worker is dropped, and insert still reports success.
   */
  lemma RoadScenario(inv: seq<Resource>, v: real)
    ensures Insert(Road, inv, Worker(v)).accepted
    ensures v <= 0.02 * |inv| as real ==> Insert(Road, inv, Worker(v)).inventory == inv
    ensures v > 0.02 * |inv| as real ==>
      Insert(Road, inv, Worker(v)).inventory == inv + [Worker(v - 0.02 * |inv| as real)]
  {
  }

  /** Index of the first buffered resource that a place of kind k would accept. */
  function FirstAccepted(inv: seq<Resource>, k: PlaceKind): (o: Option<nat>)
    ensures o.Some? ==> o.value < |inv| && Uses(k, KindOf(inv[o.value]))
    ensures o.Some? ==> forall j :: 0 <= j < o.value ==> !Uses(k, KindOf(inv[j]))
    ensures o.None? ==> forall j :: 0 <= j < |inv| ==> !Uses(k, KindOf(inv[j]))
  {
    FirstIndex(inv, (r: Resource) => Uses(k, KindOf(r)))
  }

  /** Index of the first resource of kind t. */
  function FirstOf(inv: seq<Resource>, t: ResourceKind): (o: Option<nat>)
    ensures o.Some? ==> o.value < |inv| && KindOf(inv[o.value]) == t
    ensures o.Some? ==> forall j :: 0 <= j < o.value ==> KindOf(inv[j]) != t
    ensures o.None? <==> Count(inv, t) == 0
  {
    FirstIndex(inv, (r: Resource) => KindOf(r) == t)
  }

  // ---- use_resources (units.py:397-411, 434-448, 469-484, 520-533) ----

  const FactoryWorkerDamage: real := 0.1
  const FlatViabilityIncrease: real := 0.25

  /**
   * What one Factory (damages) or Field pass leaves of buffer entry r, given
   * the accident draw made for it. `accident or damage(...)` short-circuits, so
   * an accident removes the Worker without damaging it.
   */
  function WorkedEntry(r: Resource, accident: bool, damages: bool): seq<Resource> {
    if !r.Worker? then [r]
    else if accident then []
    else if !damages then [r]
    else
      var d := Damage(r.viability, FactoryWorkerDamage);
      if d.dead then [] else [Worker(d.viability)]
  }

  /** The original buffer entries after one Factory/Field pass; accident(i) is the draw for entry i. */
  function Worked(res: seq<Resource>, accident: nat -> bool, damages: bool): (w: seq<Resource>)
    ensures |w| <= |res|
  {
    if res == [] then []
    else
      var last := |res| - 1;
      Worked(res[..last], accident, damages) + WorkedEntry(res[last], accident(last), damages)
  }

  function Repeat(r: Resource, n: nat): (s: seq<Resource>)
    ensures |s| == n
    ensures forall i :: 0 <= i < n ==> s[i] == r
  {
    if n == 0 then [] else Repeat(r, n - 1) + [r]
  }

  /** Factory.use_resources: surviving entries, then one Product per Worker present. */
  function FactoryOutcome(res: seq<Resource>, accident: nat -> bool): seq<Resource> {
    Worked(res, accident, true) + Repeat(Product, Count(res, WorkerKind))
  }

  /** Field.use_resources: surviving entries, then one Food per Worker present. */
  function FieldOutcome(res: seq<Resource>, accident: nat -> bool): seq<Resource> {
    Worked(res, accident, false) + Repeat(Food, Count(res, WorkerKind))
  }

  lemma {:induction false} CountRepeat(r: Resource, n: nat, t: ResourceKind)
    ensures Count(Repeat(r, n), t) == if KindOf(r) == t then n else 0
  {
    if n > 0 {
      CountRepeat(r, n - 1, t);
      CountAppend(Repeat(r, n - 1), [r], t);
    }
  }

  /** A pass keeps every non-Worker entry. */
  lemma {:induction false} WorkedKeeps(res: seq<Resource>, accident: nat -> bool, damages: bool, t: ResourceKind)
    requires t != WorkerKind
    ensures Count(Worked(res, accident, damages), t) == Count(res, t)
  {
    if res != [] {
      var last := |res| - 1;
      assert res == res[..last] + [res[last]];
      WorkedKeeps(res[..last], accident, damages, t);
      CountAppend(Worked(res[..last], accident, damages), WorkedEntry(res[last], accident(last), damages), t);
      CountAppend(res[..last], [res[last]], t);
    }
  }

  /** A pass never adds a Worker. */
  lemma {:induction false} WorkedWorkers(res: seq<Resource>, accident: nat -> bool, damages: bool)
    ensures Count(Worked(res, accident, damages), WorkerKind) <= Count(res, WorkerKind)
  {
    if res != [] {
      var last := |res| - 1;
      assert res == res[..last] + [res[last]];
      WorkedWorkers(res[..last], accident, damages);
      CountAppend(Worked(res[..last], accident, damages), WorkedEntry(res[last], accident(last), damages), WorkerKind);
      CountAppend(res[..last], [res[last]], WorkerKind);
    }
  }

  /** The pass over a prefix of the buffer is a prefix of the pass over the whole buffer. */
  lemma {:induction false} WorkedPrefix(res: seq<Resource>, j: nat, accident: nat -> bool, damages: bool)
    requires j <= |res|
    ensures |Worked(res[..j], accident, damages)| <= |Worked(res, accident, damages)|
    ensures Worked(res, accident, damages)[..|Worked(res[..j], accident, damages)|] == Worked(res[..j], accident, damages)
    decreases |res|
  {
    if j < |res| {
      var last := |res| - 1;
      assert res[..last][..j] == res[..j];
      WorkedPrefix(res[..last], j, accident, damages);
    } else {
      assert res[..j] == res;
    }
  }

  /**
   * The fate of the Worker at position i: it is removed iff its accident draw
   * fires or a 0.1 damage is lethal (Factory); otherwise it stays, after the
   * survivors before it, with 0.1 less viability.
   */
  lemma FactoryWorkerFate(res: seq<Resource>, accident: nat -> bool, i: nat)
    requires i < |res| && res[i].Worker?
    ensures var removed := accident(i) || res[i].viability - FactoryWorkerDamage <= 0.0;
      Worked(res[..i + 1], accident, true)
        == Worked(res[..i], accident, true) + (if removed then [] else [Worker(res[i].viability - FactoryWorkerDamage)])
  {
    assert res[..i + 1][..i] == res[..i];
  }

  /** Field: a Worker is removed iff its accident draw fires, and is otherwise kept unchanged. */
  lemma FieldWorkerFate(res: seq<Resource>, accident: nat -> bool, i: nat)
    requires i < |res| && res[i].Worker?
    ensures Worked(res[..i + 1], accident, false)
         == Worked(res[..i], accident, false) + (if accident(i) then [] else [res[i]])
  {
    assert res[..i + 1][..i] == res[..i];
  }

  /**
   * Factory appends exactly one Product per Worker present, keeps every Food
   * and Product it held, and ends with no more Workers than it started with.
   */
  lemma FactoryOutcomeCounts(res: seq<Resource>, accident: nat -> bool)
    ensures var out := FactoryOutcome(res, accident);
      Count(out, ProductKind) == Count(res, ProductKind) + Count(res, WorkerKind)
      && Count(out, FoodKind) == Count(res, FoodKind)
      && Count(out, WorkerKind) <= Count(res, WorkerKind)
      && out[|out| - Count(res, WorkerKind)..] == Repeat(Product, Count(res, WorkerKind))
  {
    var w := Worked(res, accident, true);
    var n := Count(res, WorkerKind);
    WorkedKeeps(res, accident, true, ProductKind);
    WorkedKeeps(res, accident, true, FoodKind);
    WorkedWorkers(res, accident, true);
    CountAppend(w, Repeat(Product, n), ProductKind);
    CountAppend(w, Repeat(Product, n), FoodKind);
    CountAppend(w, Repeat(Product, n), WorkerKind);
    CountRepeat(Product, n, ProductKind);
    CountRepeat(Product, n, FoodKind);
    CountRepeat(Product, n, WorkerKind);
  }

  /** Field appends exactly one Food per Worker present and keeps every Food and Product it held. */
  lemma FieldOutcomeCounts(res: seq<Resource>, accident: nat -> bool)
    ensures var out := FieldOutcome(res, accident);
      Count(out, FoodKind) == Count(res, FoodKind) + Count(res, WorkerKind)
      && Count(out, ProductKind) == Count(res, ProductKind)
      && Count(out, WorkerKind) <= Count(res, WorkerKind)
  {
    var w := Worked(res, accident, false);
    var n := Count(res, WorkerKind);
    WorkedKeeps(res, accident, false, ProductKind);
    WorkedKeeps(res, accident, false, FoodKind);
    WorkedWorkers(res, accident, false);
    CountAppend(w, Repeat(Food, n), ProductKind);
    CountAppend(w, Repeat(Food, n), FoodKind);
    CountAppend(w, Repeat(Food, n), WorkerKind);
    CountRepeat(Food, n, ProductKind);
    CountRepeat(Food, n, FoodKind);
    CountRepeat(Food, n, WorkerKind);
  }

  /** One Flat buffer entry after `add_viability(0.25)` on every Worker. */
  function FedEntry(r: Resource): Resource {
    if r.Worker? then Worker(Added(r.viability, FlatViabilityIncrease)) else r
  }

  function Fed(res: seq<Resource>): (f: seq<Resource>)
    ensures |f| == |res|
    ensures forall i :: 0 <= i < |res| ==> f[i] == FedEntry(res[i])
  {
    if res == [] then [] else [FedEntry(res[0])] + Fed(res[1..])
  }

  lemma {:induction false} FedCounts(res: seq<Resource>, t: ResourceKind)
    ensures Count(Fed(res), t) == Count(res, t)
  {
    if res != [] {
      FedCounts(res[1..], t);
      assert Fed(res)[1..] == Fed(res[1..]);
    }
  }

  /** `[r for r in resources if type(r) != Product]` */
  function WithoutProducts(res: seq<Resource>): (r: seq<Resource>)
    ensures Count(r, ProductKind) == 0
    ensures forall t :: t != ProductKind ==> Count(r, t) == Count(res, t)
    ensures forall i :: 0 <= i < |r| ==> r[i] in res
  {
    if res == [] then []
    else
      var rest := WithoutProducts(res[1..]);
      assert forall t :: Count(res, t) == (if KindOf(res[0]) == t then 1 else 0) + Count(res[1..], t);
      if res[0].Product? then rest
      else
        assert ([res[0]] + rest)[1..] == rest;
        [res[0]] + rest
  }

  /**
   * Flat.use_resources: with exactly two Workers a new Worker joins, otherwise
   * every Worker gains 0.25 viability (capped at 1); then all Products go.
   */
  function FlatOutcome(res: seq<Resource>): seq<Resource> {
    var grown := if Count(res, WorkerKind) == 2 then res + [Worker(FullViability)]
                 else Fed(res);
    WithoutProducts(grown)
  }

  lemma FlatOutcomeCounts(res: seq<Resource>)
    ensures var out := FlatOutcome(res);
      var w := Count(res, WorkerKind);
      Count(out, ProductKind) == 0
      && Count(out, WorkerKind) == (if w == 2 then 3 else w)
      && Count(out, FoodKind) == Count(res, FoodKind)
      && (w != 2 ==> forall i :: 0 <= i < |out| && out[i].Worker? ==> out[i].viability <= FullViability)
  {
    var w := Count(res, WorkerKind);
    if w == 2 {
      CountAppend(res, [Worker(FullViability)], WorkerKind);
      CountAppend(res, [Worker(FullViability)], FoodKind);
    } else {
      FedCounts(res, WorkerKind);
      FedCounts(res, FoodKind);
      var out := FlatOutcome(res);
      forall i | 0 <= i < |out| && out[i].Worker? ensures out[i].viability <= FullViability {
        var j :| 0 <= j < |Fed(res)| && Fed(res)[j] == out[i];
      }
    }
  }

  /**
   * Diner.use_resources: removes the first Food and feeds the first Worker by
   * delta. `add_viability` returns None, so the Worker is never removed. The
   * source's thread dies on an IndexError (None here) when either is missing.
   */
  function DinerOutcome(res: seq<Resource>, delta: real): Option<seq<Resource>> {
    match (FirstOf(res, WorkerKind), FirstOf(res, FoodKind))
    case (Some(wi), Some(fi)) =>
      Some(RemoveAt(res[wi := Worker(Added(res[wi].viability, delta))], fi))
    case _ => None
  }

  lemma DinerOutcomeCounts(res: seq<Resource>, delta: real)
    ensures DinerOutcome(res, delta).Some? <==> Count(res, WorkerKind) > 0 && Count(res, FoodKind) > 0
    ensures DinerOutcome(res, delta).Some? ==>
      var out := DinerOutcome(res, delta).value;
      |out| == |res| - 1
      && Count(out, FoodKind) == Count(res, FoodKind) - 1
      && Count(out, WorkerKind) == Count(res, WorkerKind)
      && Count(out, ProductKind) == Count(res, ProductKind)
  {
    var wo, fo := FirstOf(res, WorkerKind), FirstOf(res, FoodKind);
    if wo.Some? && fo.Some? {
      var wi, fi := wo.value, fo.value;
      var fedRes := res[wi := Worker(Added(res[wi].viability, delta))];
      CountUpdate(res, wi, Worker(Added(res[wi].viability, delta)), FoodKind);
      CountUpdate(res, wi, Worker(Added(res[wi].viability, delta)), WorkerKind);
      CountUpdate(res, wi, Worker(Added(res[wi].viability, delta)), ProductKind);
      CountRemoveAt(fedRes, fi, FoodKind);
      CountRemoveAt(fedRes, fi, WorkerKind);
      CountRemoveAt(fedRes, fi, ProductKind);
    }
  }

  /** The buffer use_resources leaves, or None where the source's thread dies on an exception first. */
  function UseOutcome(k: PlaceKind, res: seq<Resource>, accident: nat -> bool, delta: real): Option<seq<Resource>>
    requires IsNode(k)
  {
    match k
    case Factory => if |res| == 0 || !res[0].Worker? then None else Some(FactoryOutcome(res, accident))
    case Field => if |res| == 0 || !res[0].Worker? then None else Some(FieldOutcome(res, accident))
    case Flat => Some(FlatOutcome(res))
    case Diner => DinerOutcome(res, delta)
  }

  /**
   * A Node after its production step: `_working` is set first; a step that
   * completes stores the new buffer, clears `_working` and marks the buffer
   * as waiting for pickup; a step whose thread dies leaves `_working` set.
   */
  function Used(p: Place, accident: nat -> bool, delta: real): (q: Place)
    requires IsNode(p.kind)
    ensures q.kind == p.kind && q.ingoing == p.ingoing && q.outgoing == p.outgoing
    ensures q.working <==> UseOutcome(p.kind, p.resources, accident, delta).None?
    ensures !q.working ==> q.hasWaiting
  {
    match UseOutcome(p.kind, p.resources, accident, delta)
    case None => p.(working := true)
    case Some(r) => p.(resources := r, working := false, hasWaiting := true)
  }

  // ---- give_resources (units.py:376-386) ----

  const DeliveryCooldown: real := 0.2

  /** The entries of res that a container of kind ck does not use, in order. */
  function Kept(res: seq<Resource>, ck: PlaceKind): (r: seq<Resource>)
    ensures forall i :: 0 <= i < |r| ==> !Uses(ck, KindOf(r[i]))
    ensures |r| <= |res|
  {
    if res == [] then []
    else
      var last := |res| - 1;
      Kept(res[..last], ck) + (if Uses(ck, KindOf(res[last])) then [] else [res[last]])
  }

  /** The entries of res that a container of kind ck uses, in order. */
  function Handed(res: seq<Resource>, ck: PlaceKind): (r: seq<Resource>)
    ensures forall i :: 0 <= i < |r| ==> Uses(ck, KindOf(r[i]))
  {
    if res == [] then []
    else
      var last := |res| - 1;
      Handed(res[..last], ck) + (if Uses(ck, KindOf(res[last])) then [res[last]] else [])
  }

  /** Delivery splits the buffer: what is handed over and what is kept make up the whole. */
  lemma {:induction false} KeptHandedPartition(res: seq<Resource>, ck: PlaceKind)
    ensures multiset(Kept(res, ck)) + multiset(Handed(res, ck)) == multiset(res)
  {
    if res != [] {
      var last := |res| - 1;
      assert res == res[..last] + [res[last]];
      KeptHandedPartition(res[..last], ck);
    }
  }

  /** `container.insert(r)` for each r of rs in turn. */
  function InsertAll(k: PlaceKind, inv: seq<Resource>, rs: seq<Resource>): seq<Resource> {
    if rs == [] then inv
    else
      var last := |rs| - 1;
      Insert(k, InsertAll(k, inv, rs[..last]), rs[last]).inventory
  }

  /** A Magazine or Barn stores everything it is handed, in order; a Road never stores more. */
  lemma {:induction false} InsertAllStores(k: PlaceKind, inv: seq<Resource>, rs: seq<Resource>)
    requires forall i :: 0 <= i < |rs| ==> Uses(k, KindOf(rs[i]))
    ensures k != Road ==> InsertAll(k, inv, rs) == inv + rs
    ensures |InsertAll(k, inv, rs)| <= |inv| + |rs|
  {
    if rs != [] {
      var last := |rs| - 1;
      InsertAllStores(k, inv, rs[..last]);
      assert rs == rs[..last] + [rs[last]];
    }
  }

  /** Re-inserting never adds entries: each `insert` appends at most the one resource it is given. */
  lemma {:induction false} InsertAllLength(k: PlaceKind, inv: seq<Resource>, rs: seq<Resource>)
    ensures |InsertAll(k, inv, rs)| <= |inv| + |rs|
  {
    if rs != [] {
      InsertAllLength(k, inv, rs[..|rs| - 1]);
    }
  }

  /** A class other than Road keeps exactly the entries it uses, in order, and drops the rest. */
  lemma {:induction false} InsertAllFilters(k: PlaceKind, inv: seq<Resource>, rs: seq<Resource>)
    requires k != Road
    ensures InsertAll(k, inv, rs) == inv + Handed(rs, k)
  {
    if rs != [] {
      InsertAllFilters(k, inv, rs[..|rs| - 1]);
    }
  }

  /** Nothing is filtered out of a buffer whose every entry the class uses. */
  lemma {:induction false} HandedAll(rs: seq<Resource>, k: PlaceKind)
    requires forall i :: 0 <= i < |rs| ==> Uses(k, KindOf(rs[i]))
    ensures Handed(rs, k) == rs
  {
    if rs != [] {
      var last := |rs| - 1;
      HandedAll(rs[..last], k);
      assert rs == rs[..last] + [rs[last]];
    }
  }

  /** The buffer a place of class k gets back when `from_json` re-inserts the saved buffer rs into an empty one. */
  function Reloaded(k: PlaceKind, rs: seq<Resource>): (r: seq<Resource>)
    ensures |r| <= |rs|
  {
    InsertAllLength(k, [], rs);
    InsertAll(k, [], rs)
  }

  /** Re-inserting one more resource is one more `insert` into the buffer re-inserted so far. */
  lemma ReloadedStep(k: PlaceKind, done: seq<Resource>, r: Resource)
    ensures Reloaded(k, done + [r]) == Insert(k, Reloaded(k, done), r).inventory
  {
    assert (done + [r])[..|done|] == done;
  }

  /**
   * A buffer that re-insertion leaves alone: every entry is of a kind the
   * class uses, and a Road, which damages each Worker by the length of the
   * buffer it enters, holds at most one Worker that is still alive.
   */
  predicate Intact(k: PlaceKind, rs: seq<Resource>) {
    if k == Road then rs == [] || (|rs| == 1 && rs[0].Worker? && rs[0].viability > 0.0)
    else forall i :: 0 <= i < |rs| ==> Uses(k, KindOf(rs[i]))
  }

  /**
   * Re-insertion filters a non-Road buffer down to the entries the class
   * uses, and it gives back the saved buffer exactly when that buffer is intact.
   */
  lemma {:induction false} ReloadedIntact(k: PlaceKind, rs: seq<Resource>)
    ensures k != Road ==> Reloaded(k, rs) == Handed(rs, k)
    ensures Reloaded(k, rs) == rs <==> Intact(k, rs)
  {
    if k != Road {
      InsertAllFilters(k, [], rs);
      assert [] + Handed(rs, k) == Handed(rs, k);
      if Intact(k, rs) {
        HandedAll(rs, k);
      }
    } else if |rs| == 1 {
      assert rs[..0] == [] && rs[0] == rs[|rs| - 1];
      assert InsertAll(Road, [], rs[..0]) == [];
      assert Reloaded(Road, rs) == Insert(Road, [], rs[0]).inventory;
      if rs[0].Worker? {
        assert rs == [Worker(rs[0].viability)];
      }
    } else if |rs| > 1 {
      var last := |rs| - 1;
      InsertAllLength(Road, [], rs[..last]);
      if Reloaded(Road, rs) == rs {
        assert false;
      }
    }
  }

  /**
   * Delivery from a Node to a Container other than a Road conserves resources:
   * the two buffers hold together exactly what they held before.
   */
  lemma GiveConserves(res: seq<Resource>, ck: PlaceKind, cres: seq<Resource>)
    requires ck != Road
    ensures multiset(Kept(res, ck)) + multiset(InsertAll(ck, cres, Handed(res, ck))) == multiset(res) + multiset(cres)
  {
    KeptHandedPartition(res, ck);
    InsertAllStores(ck, cres, Handed(res, ck));
  }

  /**
   * `node.give_resources(container)` on the two places: nothing unless the Node
   * has waiting resources; otherwise every entry the container uses is inserted
   * into it and removed from the Node, and the Node still waits iff anything is
   * left; it may fetch again 0.2 after now.
   */
  function Give(node: Place, container: Place, now: real): (r: (Place, Place))
    ensures r.0.kind == node.kind && r.0.ingoing == node.ingoing && r.0.outgoing == node.outgoing
    ensures r.1.kind == container.kind && r.1.ingoing == container.ingoing && r.1.outgoing == container.outgoing
    ensures node.hasWaiting ==>
      (forall i :: 0 <= i < |r.0.resources| ==> !Uses(container.kind, KindOf(r.0.resources[i])))
      && (r.0.hasWaiting <==> |r.0.resources| > 0)
    ensures !node.hasWaiting ==> r == (node, container)
  {
    if !node.hasWaiting then (node, container)
    else
      var kept := Kept(node.resources, container.kind);
      (node.(resources := kept, hasWaiting := |kept| != 0, nextAvailable := now + DeliveryCooldown),
       container.(resources := InsertAll(container.kind, container.resources, Handed(node.resources, container.kind))))
  }

  // ---- saved records (units.py:283-310) ----

  /**
   * The data of a saved place that the model keeps: class name, serial index,
   * neighbour indices, resources, position and the Node fields.
   */
  datatype PlaceJson = PlaceJson(
    typeName: string,
    index: int,
    ins: seq<int>,
    out: seq<int>,
    resources: seq<ResourceJson>,
    x: real,
    y: real,
    working: bool,
    hasWaiting: bool,
    nextAvailable: real)

  function ResourcesJson(rs: seq<Resource>): (js: seq<ResourceJson>)
    ensures |js| == |rs|
    ensures forall i :: 0 <= i < |rs| ==> js[i] == ToJson(rs[i])
  {
    seq(|rs|, i requires 0 <= i < |rs| => ToJson(rs[i]))
  }

  /** `Place.json()`, given the indices of the neighbours. */
  function PlaceJsonOf(p: Place, ins: seq<int>, out: seq<int>): (j: PlaceJson)
    ensures j.typeName == KindName(p.kind) && j.index == p.index && j.out == out && j.ins == ins
    ensures |j.resources| == |p.resources|
  {
    PlaceJson(KindName(p.kind), p.index, ins, out, ResourcesJson(p.resources), p.x, p.y,
              p.working, p.hasWaiting, p.nextAvailable)
  }

  /** Decodes every saved resource; a KeyError on the first unknown class name. */
  function DecodeAll(js: seq<ResourceJson>): (r: Result<seq<Resource>>)
    ensures r.Ok? <==> forall i :: 0 <= i < |js| ==> FromJson(js[i]).Ok?
    ensures r.Ok? ==> |r.value| == |js| && forall i :: 0 <= i < |js| ==> r.value[i] == FromJson(js[i]).value
  {
    if js == [] then Ok([])
    else
      match FromJson(js[0])
      case Err(e) => Err(e)
      case Ok(r) =>
        match DecodeAll(js[1..])
        case Err(e) => Err(e)
        case Ok(rest) => Ok([r] + rest)
  }

  /** Decoding one more saved resource extends the decoded prefix by it. */
  lemma DecodeAllStep(js: seq<ResourceJson>, i: nat)
    requires i < |js| && DecodeAll(js[..i]).Ok? && FromJson(js[i]).Ok?
    ensures DecodeAll(js[..i + 1]) == Ok(DecodeAll(js[..i]).value + [FromJson(js[i]).value])
  {
    var pre, ext := js[..i], js[..i + 1];
    forall t | 0 <= t < i + 1 ensures FromJson(ext[t]).Ok? {
      if t < i { assert ext[t] == pre[t]; }
    }
    var v := DecodeAll(ext).value;
    var w := DecodeAll(pre).value + [FromJson(js[i]).value];
    forall t | 0 <= t < i + 1 ensures v[t] == w[t] {
      if t < i { assert ext[t] == pre[t]; } else { assert ext[t] == js[i]; }
    }
    assert v == w;
  }

  /** Saved resources decode to the resources that were saved. */
  lemma {:induction false} DecodeAllJson(rs: seq<Resource>)
    ensures DecodeAll(ResourcesJson(rs)) == Ok(rs)
  {
    if rs != [] {
      var js := ResourcesJson(rs);
      DecodeAllJson(rs[1..]);
      assert js[1..] == ResourcesJson(rs[1..]);
      JsonRoundTrip(rs[0]);
      assert FromJson(js[0]) == Ok(rs[0]);
      assert rs == [rs[0]] + rs[1..];
    }
  }

  /**
   * The fields `CLASS(**json)` restores: a non-zero saved index is kept and
   * index 0 takes the next serial number instead; `_working` starts false;
   * only a Node reads back its waiting flag and cooldown.
   */
  function Reconstructed(k: PlaceKind, j: PlaceJson, fallbackIndex: int, res: seq<Resource>): Place {
    Place(k, if j.index != 0 then j.index else fallbackIndex, j.x, j.y, res, [], [], false,
          IsNode(k) && j.hasWaiting, if IsNode(k) then j.nextAvailable else 0.0)
  }

  /**
   * `Place.from_json(json)` as written: the saved resources are put back one by
   * one through `insert`, so a Road damages them again and a Factory or Field
   * drops its undelivered output.
   */
  function PlaceFromJsonAsWritten(j: PlaceJson, fallbackIndex: int): (r: Result<Place>)
    ensures r.Ok? <==> PlaceFromJson(j, fallbackIndex).Ok?
    ensures r.Ok? ==> var q := PlaceFromJson(j, fallbackIndex).value;
      r.value == q.(resources := Reloaded(q.kind, q.resources))
  {
    match KindFromName(j.typeName)
    case None => Err("KeyError")
    case Some(k) =>
      match DecodeAll(j.resources)
      case Err(e) => Err(e)
      case Ok(rs) => Ok(Reconstructed(k, j, fallbackIndex, InsertAll(k, [], rs)))
  }

  /** `Place.from_json(json)` with the saved buffer restored as it was saved. */
  function PlaceFromJson(j: PlaceJson, fallbackIndex: int): (r: Result<Place>)
    ensures r.Ok? <==> KindFromName(j.typeName).Some? && DecodeAll(j.resources).Ok?
    ensures r.Ok? ==> KindName(r.value.kind) == j.typeName && r.value.ingoing == [] && r.value.outgoing == []
    ensures r.Ok? ==> |r.value.resources| == |j.resources| && !r.value.working
  {
    match KindFromName(j.typeName)
    case None => Err("KeyError")
    case Some(k) =>
      match DecodeAll(j.resources)
      case Err(e) => Err(e)
      case Ok(rs) => Ok(Reconstructed(k, j, fallbackIndex, rs))
  }

  /**
   * Saving a place and loading it back restores its kind, position, buffer and
   * Node fields; its index survives unless it was 0, and its edges are rewired
   * separately by the map.
   */
  lemma PlaceJsonRoundTrip(p: Place, ins: seq<int>, out: seq<int>, fallbackIndex: int)
    requires IsNode(p.kind) || (!p.hasWaiting && p.nextAvailable == 0.0)
    ensures PlaceFromJson(PlaceJsonOf(p, ins, out), fallbackIndex)
         == Ok(p.(index := if p.index != 0 then p.index else fallbackIndex,
                  ingoing := [], outgoing := [], working := false))
  {
    KindNameRoundTrip(p.kind);
    DecodeAllJson(p.resources);
  }

  /**
   * Saving a place and loading it back as `from_json` is written restores what
   * PlaceJsonRoundTrip restores, except that the buffer comes back re-inserted;
   * the two loaders agree exactly when the buffer is intact.
   */
  lemma PlaceJsonReload(p: Place, ins: seq<int>, out: seq<int>, fallbackIndex: int)
    requires IsNode(p.kind) || (!p.hasWaiting && p.nextAvailable == 0.0)
    ensures PlaceFromJsonAsWritten(PlaceJsonOf(p, ins, out), fallbackIndex)
         == Ok(p.(index := if p.index != 0 then p.index else fallbackIndex,
                  ingoing := [], outgoing := [], working := false,
                  resources := Reloaded(p.kind, p.resources)))
    ensures (PlaceFromJsonAsWritten(PlaceJsonOf(p, ins, out), fallbackIndex)
             == PlaceFromJson(PlaceJsonOf(p, ins, out), fallbackIndex)) <==> Intact(p.kind, p.resources)
  {
    PlaceJsonRoundTrip(p, ins, out, fallbackIndex);
    ReloadedIntact(p.kind, p.resources);
  }

  /** As written, a reloaded Road holding two fresh Workers comes back with the second at 0.98. */
  lemma ReloadDamagesRoadWorkers()
    ensures var p := Place(Road, 1, 0.0, 0.0, [Worker(1.0), Worker(1.0)], [], [], false, false, 0.0);
      PlaceFromJsonAsWritten(PlaceJsonOf(p, [], []), 0)
        == Ok(p.(resources := [Worker(1.0), Worker(0.98)]))
  {
    var p := Place(Road, 1, 0.0, 0.0, [Worker(1.0), Worker(1.0)], [], [], false, false, 0.0);
    var rs := [Worker(1.0), Worker(1.0)];
    DecodeAllJson(rs);
    assert rs[..1] == [Worker(1.0)] && rs[..1][..0] == [];
    assert InsertAll(Road, [], rs[..1]) == [Worker(1.0)];
    assert Insert(Road, [Worker(1.0)], Worker(1.0)).inventory == [Worker(1.0), Worker(0.98)];
  }

  /** As written, a reloaded Factory loses the Product it was waiting to deliver. */
  lemma ReloadDropsFactoryOutput()
    ensures var p := Place(Factory, 1, 0.0, 0.0, [Product], [], [], false, true, 0.0);
      PlaceFromJsonAsWritten(PlaceJsonOf(p, [], []), 0) == Ok(p.(resources := []))
  {
    var p := Place(Factory, 1, 0.0, 0.0, [Product], [], [], false, true, 0.0);
    DecodeAllJson([Product]);
    assert [Product][..0] == [];
  }
}
