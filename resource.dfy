/**
 * The three resource kinds that flow through the place graph. Only a Worker has
 * state: its viability, capped at 1 and fatal at or below 0. Viability is a
 * Python float in the source; here it is an exact `real`.
 */
module Resources {
  import opened Wrappers
  import opened Seqs

  datatype ResourceKind = WorkerKind | FoodKind | ProductKind

  datatype Resource = Worker(viability: real) | Food | Product

  function KindOf(r: Resource): ResourceKind {
    match r
    case Worker(_) => WorkerKind
    case Food => FoodKind
    case Product => ProductKind
  }

  /** The viability of a Worker created without one, and the cap on viability. */
  const FullViability: real := 1.0

  /** `Worker()`, `Food()`, `Product()`: a fresh unit of the given kind. */
  function NewResource(t: ResourceKind): (r: Resource)
    ensures KindOf(r) == t
    ensures r.Worker? ==> r.viability == FullViability
  {
    match t
    case WorkerKind => Worker(FullViability)
    case FoodKind => Food
    case ProductKind => Product
  }

  /** Number of resources of kind t (`_count_resources` for one type). */
  function Count(s: seq<Resource>, t: ResourceKind): (n: nat)
    ensures n <= |s|
    ensures n == 0 <==> forall i :: 0 <= i < |s| ==> KindOf(s[i]) != t
    ensures n == |s| <==> forall i :: 0 <= i < |s| ==> KindOf(s[i]) == t
  {
    if s == [] then 0
    else
      var rest := Count(s[1..], t);
      assert forall i :: 1 <= i < |s| ==> s[i] == s[1..][i - 1];
      (if KindOf(s[0]) == t then 1 else 0) + rest
  }

  lemma {:induction false} CountAppend(a: seq<Resource>, b: seq<Resource>, t: ResourceKind)
    ensures Count(a + b, t) == Count(a, t) + Count(b, t)
  {
    if a == [] {
      assert a + b == b;
    } else {
      assert (a + b)[1..] == a[1..] + b;
      CountAppend(a[1..], b, t);
    }
  }

  /** Dropping the entry at i lowers the count of its kind by one and leaves the others. */
  lemma CountRemoveAt(s: seq<Resource>, i: nat, t: ResourceKind)
    requires i < |s|
    ensures Count(RemoveAt(s, i), t) == Count(s, t) - (if KindOf(s[i]) == t then 1 else 0)
  {
    assert s == s[..i] + [s[i]] + s[i + 1..];
    assert RemoveAt(s, i) == s[..i] + s[i + 1..];
    CountAppend(s[..i] + [s[i]], s[i + 1..], t);
    CountAppend(s[..i], [s[i]], t);
    CountAppend(s[..i], s[i + 1..], t);
  }

  /** Replacing an entry by one of the same kind keeps every count. */
  lemma CountUpdate(s: seq<Resource>, i: nat, r: Resource, t: ResourceKind)
    requires i < |s| && KindOf(r) == KindOf(s[i])
    ensures Count(s[i := r], t) == Count(s, t)
  {
    assert s == s[..i] + [s[i]] + s[i + 1..];
    assert s[i := r] == s[..i] + [r] + s[i + 1..];
    CountAppend(s[..i] + [s[i]], s[i + 1..], t);
    CountAppend(s[..i], [s[i]], t);
    CountAppend(s[..i] + [r], s[i + 1..], t);
    CountAppend(s[..i], [r], t);
  }

  // ---- Worker viability (units.py:61-80, resource.py:44-63) ----

  /** `restore_viability(v)`: viability becomes min(1, v). */
  function Restored(v: real): (r: real)
    ensures r <= FullViability
    ensures r <= v
    ensures r == v || r == FullViability
  {
    if v < FullViability then v else FullViability
  }

  /** `add_viability(d)`: add d, then clamp the sum at 1. */
  function Added(v: real, d: real): (r: real)
    ensures r <= FullViability
    ensures v + d <= FullViability ==> r == v + d
    ensures v + d > FullViability ==> r == FullViability
  {
    var sum := v + d;
    if sum > FullViability then FullViability else sum
  }

  /** The outcome of `damage(d)`: the new viability and the returned death flag. */
  datatype DamageOutcome = DamageOutcome(viability: real, dead: bool)

  /** `damage(d)`: subtract d; the Worker is dead iff the result is at most 0. */
  function Damage(v: real, d: real): (o: DamageOutcome)
    ensures o.viability == v - d
    ensures o.dead <==> o.viability <= 0.0
  {
    var left := v - d;
    DamageOutcome(left, left <= 0.0)
  }

  /** add_viability is restore_viability applied to the sum. */
  lemma AddedIsRestoredSum(v: real, d: real)
    ensures Added(v, d) == Restored(v + d)
  {
  }

  /** Feeding a Worker at or below the cap never lowers it, and a second feed never passes the cap. */
  lemma AddedMonotone(v: real, d: real, e: real)
    requires v <= FullViability && 0.0 <= d
    ensures v <= Added(v, d) <= FullViability
    ensures Added(Added(v, d), e) <= FullViability
  {
  }

  // ---- JSON records (units.py:25-45, resource.py:18-32) ----

  /** The data of a saved resource: its class name and, for a Worker, its viability. */
  datatype ResourceJson = ResourceJson(typeName: string, viability: Option<real>)

  function TypeName(t: ResourceKind): string {
    match t
    case WorkerKind => "Worker"
    case FoodKind => "Food"
    case ProductKind => "Product"
  }

  /** `Resource.json()`: the class name, plus the viability of a Worker. */
  function ToJson(r: Resource): (j: ResourceJson)
    ensures j.typeName == TypeName(KindOf(r))
    ensures j.viability.Some? <==> r.Worker?
  {
    match r
    case Worker(v) => ResourceJson(TypeName(WorkerKind), Some(v))
    case Food => ResourceJson(TypeName(FoodKind), None)
    case Product => ResourceJson(TypeName(ProductKind), None)
  }

  /**
   * `Resource.from_json(j)`: looks the class up by name (a KeyError for any other
   * name); a Worker without a saved viability gets the default 1.
   */
  function FromJson(j: ResourceJson): (r: Result<Resource>)
    ensures r.Ok? <==> exists t :: TypeName(t) == j.typeName
    ensures r.Ok? ==> TypeName(KindOf(r.value)) == j.typeName
    ensures r.Ok? && r.value.Worker? && j.viability.None? ==> r.value.viability == FullViability
  {
    if j.typeName == TypeName(WorkerKind) then
      Ok(Worker(if j.viability.Some? then j.viability.value else FullViability))
    else if j.typeName == TypeName(FoodKind) then Ok(Food)
    else if j.typeName == TypeName(ProductKind) then Ok(Product)
    else Err("KeyError")
  }

  /** Saving then loading a resource yields the same kind and, for a Worker, the same viability. */
  lemma JsonRoundTrip(r: Resource)
    ensures FromJson(ToJson(r)) == Ok(r)
  {
  }
}
