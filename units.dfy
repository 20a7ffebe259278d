/**
 * The mutable side of units.py: every place object lives in the arena of a
 * `World`, which also holds the class-wide serial counter; the methods here
 * change places in place, step by step, as the source's methods do. The loops
 * that rework one resource buffer are the module-level methods below.
 */
module Units {
  import opened Wrappers
  import opened Seqs
  import opened Resources
  import opened Places
  import opened Graph

  // ---- buffer loops of use_resources and give_resources ----

  /**
   * The loop of Factory.use_resources (damages, output Product) and
   * Field.use_resources (output Food) over a snapshot of the buffer: one
   * output appended per Worker, and each Worker removed on its accident draw
   * or, in a Factory, a lethal 0.1 damage.
   */
  method Work(res: seq<Resource>, accident: nat -> bool, damages: bool, output: Resource) returns (buf: seq<Resource>)
    ensures buf == Worked(res, accident, damages) + Repeat(output, Count(res, WorkerKind))
  {
    buf := res;
    var i := 0;
    var pos := 0;
    WorkStart(res, accident, damages, output);
    while i < |res|
      invariant 0 <= i <= |res|
      invariant pos == |Worked(res[..i], accident, damages)|
      invariant buf == WorkState(res, i, accident, damages, output)
    {
      ghost var before, p0 := buf, pos;
      buf, pos := WorkOn(buf, pos, res[i], accident(i), damages, output);
      WorkAdvance(res, i, accident, damages, output, before, p0, buf, pos);
      i := i + 1;
    }
    WorkEnd(res, accident, damages, output);
  }

  lemma WorkStart(res: seq<Resource>, accident: nat -> bool, damages: bool, output: Resource)
    ensures |Worked(res[..0], accident, damages)| == 0 && WorkState(res, 0, accident, damages, output) == res
  {
    assert res[..0] == [] && res[0..] == res;
  }

  lemma WorkEnd(res: seq<Resource>, accident: nat -> bool, damages: bool, output: Resource)
    ensures WorkState(res, |res|, accident, damages, output) == Worked(res, accident, damages) + Repeat(output, Count(res, WorkerKind))
  {
    assert res[..|res|] == res && res[|res|..] == [];
  }

  /** The buffer of the Factory/Field pass once the first i entries are done. */
  ghost function WorkState(res: seq<Resource>, i: nat, accident: nat -> bool, damages: bool, output: Resource): seq<Resource>
    requires i <= |res|
  {
    Worked(res[..i], accident, damages) + res[i..] + Repeat(output, Count(res[..i], WorkerKind))
  }

  /**
   * The body of that loop for entry r at position pos of the live buffer: a
   * Worker appends one output and is then taken out or replaced by what is
   * left of it.
   */
  method WorkOn(buf: seq<Resource>, pos: nat, r: Resource, accident: bool, damages: bool, output: Resource)
    returns (next: seq<Resource>, nextPos: nat)
    requires pos < |buf|
    ensures Stepped(buf, pos, r, accident, damages, output, next, nextPos)
  {
    next, nextPos := buf, pos + 1;
    if r.Worker? {
      next := next + [output];
      if accident {
        next, nextPos := next[..pos] + next[pos + 1..], pos;
      } else if damages {
        var d := Damage(r.viability, FactoryWorkerDamage);
        if d.dead {
          next, nextPos := next[..pos] + next[pos + 1..], pos;
        } else {
          next := next[pos := Worker(d.viability)];
        }
      } else {
        next := next[pos := r];
      }
    }
  }

  /** What one pass of the loop body does to the live buffer and the position of the next entry. */
  predicate Stepped(buf: seq<Resource>, pos: nat, r: Resource, accident: bool, damages: bool, output: Resource,
                    next: seq<Resource>, nextPos: nat)
    requires pos < |buf|
  {
    && (!r.Worker? ==> next == buf && nextPos == pos + 1)
    && (r.Worker? && WorkedEntry(r, accident, damages) == [] ==>
          next == (buf + [output])[..pos] + (buf + [output])[pos + 1..] && nextPos == pos)
    && (r.Worker? && WorkedEntry(r, accident, damages) != [] ==>
          next == (buf + [output])[pos := WorkedEntry(r, accident, damages)[0]] && nextPos == pos + 1)
  }

  lemma WorkAdvance(res: seq<Resource>, i: nat, accident: nat -> bool, damages: bool, output: Resource,
                    before: seq<Resource>, p0: nat, buf: seq<Resource>, pos: nat)
    requires i < |res| && before == WorkState(res, i, accident, damages, output) && p0 == |Worked(res[..i], accident, damages)|
    requires p0 < |before| && Stepped(before, p0, res[i], accident(i), damages, output, buf, pos)
    ensures buf == WorkState(res, i + 1, accident, damages, output)
    ensures pos == |Worked(res[..i + 1], accident, damages)|
  {
    if !res[i].Worker? {
      WorkSkipped(res, i, accident, damages, output);
    } else if WorkedEntry(res[i], accident(i), damages) == [] {
      WorkRemoved(res, i, accident, damages, output, before + [output], p0);
    } else {
      WorkKept(res, i, accident, damages, output, before + [output], p0, WorkedEntry(res[i], accident(i), damages)[0]);
    }
  }

  /** One more entry of the pass: its fate is appended, and a Worker adds one output at the end. */
  lemma WorkedStep(res: seq<Resource>, i: nat, accident: nat -> bool, damages: bool)
    requires i < |res|
    ensures Worked(res[..i + 1], accident, damages) == Worked(res[..i], accident, damages) + WorkedEntry(res[i], accident(i), damages)
    ensures Count(res[..i + 1], WorkerKind) == Count(res[..i], WorkerKind) + (if res[i].Worker? then 1 else 0)
  {
    assert res[..i + 1][..i] == res[..i];
    assert res[..i + 1] == res[..i] + [res[i]];
    CountAppend(res[..i], [res[i]], WorkerKind);
  }

  /** A Worker that the pass removes: its output is appended and the entry taken out. */
  lemma WorkRemoved(res: seq<Resource>, i: nat, accident: nat -> bool, damages: bool, output: Resource, buf: seq<Resource>, pos: nat)
    requires i < |res| && res[i].Worker? && WorkedEntry(res[i], accident(i), damages) == []
    requires pos == |Worked(res[..i], accident, damages)|
    requires buf == WorkState(res, i, accident, damages, output) + [output]
    ensures pos < |buf|
    ensures buf[..pos] + buf[pos + 1..] == WorkState(res, i + 1, accident, damages, output)
    ensures pos == |Worked(res[..i + 1], accident, damages)|
  {
    var done := Worked(res[..i], accident, damages);
    var rest := res[i + 1..];
    var made := Repeat(output, Count(res[..i], WorkerKind));
    WorkedStep(res, i, accident, damages);
    assert Repeat(output, Count(res[..i + 1], WorkerKind)) == made + [output];
    SuffixSplit(res, i);
    Regroup(done, [], res[i], rest, made, output);
    SpliceOut(done, res[i], rest + made + [output]);
  }

  /** A Worker that stays, as survivor: its output is appended and the entry replaced. */
  lemma WorkKept(res: seq<Resource>, i: nat, accident: nat -> bool, damages: bool, output: Resource, buf: seq<Resource>, pos: nat, survivor: Resource)
    requires i < |res| && res[i].Worker? && WorkedEntry(res[i], accident(i), damages) == [survivor]
    requires pos == |Worked(res[..i], accident, damages)|
    requires buf == WorkState(res, i, accident, damages, output) + [output]
    ensures pos < |buf|
    ensures buf[pos := survivor] == WorkState(res, i + 1, accident, damages, output)
    ensures pos + 1 == |Worked(res[..i + 1], accident, damages)|
  {
    var done := Worked(res[..i], accident, damages);
    var rest := res[i + 1..];
    var made := Repeat(output, Count(res[..i], WorkerKind));
    WorkedStep(res, i, accident, damages);
    assert Repeat(output, Count(res[..i + 1], WorkerKind)) == made + [output];
    SuffixSplit(res, i);
    Regroup(done, [survivor], res[i], rest, made, output);
    SpliceSet(done, res[i], rest + made + [output], survivor);
  }

  /** Any other entry stays where it is. */
  lemma WorkSkipped(res: seq<Resource>, i: nat, accident: nat -> bool, damages: bool, output: Resource)
    requires i < |res| && !res[i].Worker?
    ensures WorkState(res, i, accident, damages, output) == WorkState(res, i + 1, accident, damages, output)
    ensures |Worked(res[..i], accident, damages)| + 1 == |Worked(res[..i + 1], accident, damages)|
  {
    WorkedStep(res, i, accident, damages);
    SuffixSplit(res, i);
    Regroup(Worked(res[..i], accident, damages), [], res[i], res[i + 1..], Repeat(output, Count(res[..i], WorkerKind)), output);
  }

  /** The regroupings of the pass's buffer that the two lemmas above need. */
  lemma Regroup<T>(a: seq<T>, e: seq<T>, x: T, b: seq<T>, c: seq<T>, y: T)
    ensures (a + e) + b + (c + [y]) == a + e + (b + c + [y])
    ensures e == [] ==> (a + e) + b + (c + [y]) == a + (b + c + [y])
    ensures a + ([x] + b) + c + [y] == a + [x] + (b + c + [y])
    ensures a + ([x] + b) + c == (a + [x]) + b + c
  {
  }

  /** Removing the entry after prefix a. */
  lemma SpliceOut<T>(a: seq<T>, x: T, b: seq<T>)
    ensures (a + [x] + b)[..|a|] + (a + [x] + b)[|a| + 1..] == a + b
  {
    var s := a + [x] + b;
    assert s[..|a|] == a;
    assert s[|a| + 1..] == b;
  }

  /** Replacing the entry after prefix a. */
  lemma SpliceSet<T>(a: seq<T>, x: T, b: seq<T>, y: T)
    ensures (a + [x] + b)[|a| := y] == a + [y] + b
  {
    assert |(a + [x] + b)[|a| := y]| == |a + [y] + b|;
  }

  /** The loop of Flat.use_resources that adds 0.25 viability to every Worker. */
  method Feed(res: seq<Resource>) returns (buf: seq<Resource>)
    ensures buf == Fed(res)
  {
    buf := res;
    var i := 0;
    while i < |buf|
      invariant 0 <= i <= |buf| && |buf| == |res|
      invariant forall j :: 0 <= j < i ==> buf[j] == FedEntry(res[j])
      invariant forall j :: i <= j < |buf| ==> buf[j] == res[j]
    {
      if buf[i].Worker? {
        buf := buf[i := Worker(Added(buf[i].viability, FlatViabilityIncrease))];
      }
      i := i + 1;
    }
  }

  /**
   * Diner.use_resources on a buffer: find the first Worker and the first Food
   * (None where the source raises an IndexError), remove the Food, then add
   * delta to the Worker's viability.
   */
  method Dine(res: seq<Resource>, delta: real) returns (out: Option<seq<Resource>>)
    ensures out == DinerOutcome(res, delta)
  {
    var wo := FirstOf(res, WorkerKind);
    var fo := FirstOf(res, FoodKind);
    if wo.None? || fo.None? {
      return None;
    }
    var wi, fi := wo.value, fo.value;
    var buf := RemoveAt(res, fi);
    var at := if fi < wi then wi - 1 else wi;
    assert buf[at] == res[wi];
    buf := buf[at := Worker(Added(buf[at].viability, delta))];
    ghost var spec := RemoveAt(res[wi := Worker(Added(res[wi].viability, delta))], fi);
    assert |buf| == |spec|;
    assert wi != fi;
    forall j | 0 <= j < |buf| ensures buf[j] == spec[j] {
      if j < fi {
        assert spec[j] == res[wi := Worker(Added(res[wi].viability, delta))][j];
      } else {
        assert spec[j] == res[wi := Worker(Added(res[wi].viability, delta))][j + 1];
      }
    }
    assert buf == spec;
    return Some(buf);
  }

  /**
   * The loop of give_resources over a snapshot of the node's buffer: each
   * resource the container uses is inserted into the container and removed
   * from the node.
   */
  method Deliver(res: seq<Resource>, ck: PlaceKind, cres: seq<Resource>) returns (kept: seq<Resource>, stored: seq<Resource>)
    ensures kept == Kept(res, ck)
    ensures stored == InsertAll(ck, cres, Handed(res, ck))
  {
    kept, stored := res, cres;
    var i := 0;
    var pos := 0;
    DeliverStart(res, ck, cres);
    while i < |res|
      invariant 0 <= i <= |res|
      invariant pos == |Kept(res[..i], ck)|
      invariant kept == Kept(res[..i], ck) + res[i..]
      invariant stored == InsertAll(ck, cres, Handed(res[..i], ck))
    {
      ghost var k0, s0, p0 := kept, stored, pos;
      kept, stored, pos := DeliverOn(kept, stored, pos, res[i], ck);
      DeliverAdvance(res, i, ck, cres, k0, s0, p0, kept, stored, pos);
      i := i + 1;
    }
    DeliverEnd(res, ck, cres);
  }

  /**
   * The body of that loop for entry r at position pos of the node's live
   * buffer: a resource the container uses is inserted there and taken out.
   */
  method DeliverOn(kept: seq<Resource>, stored: seq<Resource>, pos: nat, r: Resource, ck: PlaceKind)
    returns (kept': seq<Resource>, stored': seq<Resource>, pos': nat)
    requires pos < |kept|
    ensures Delivered(kept, stored, pos, r, ck, kept', stored', pos')
  {
    if Uses(ck, KindOf(r)) {
      stored' := Insert(ck, stored, r).inventory;
      kept', pos' := kept[..pos] + kept[pos + 1..], pos;
    } else {
      kept', stored', pos' := kept, stored, pos + 1;
    }
  }

  /** What one pass of the delivery loop body does. */
  predicate Delivered(kept: seq<Resource>, stored: seq<Resource>, pos: nat, r: Resource, ck: PlaceKind,
                      kept': seq<Resource>, stored': seq<Resource>, pos': nat)
    requires pos < |kept|
  {
    if Uses(ck, KindOf(r)) then
      stored' == Insert(ck, stored, r).inventory && kept' == kept[..pos] + kept[pos + 1..] && pos' == pos
    else
      stored' == stored && kept' == kept && pos' == pos + 1
  }

  lemma DeliverStart(res: seq<Resource>, ck: PlaceKind, cres: seq<Resource>)
    ensures |Kept(res[..0], ck)| == 0 && Kept(res[..0], ck) + res[0..] == res
    ensures InsertAll(ck, cres, Handed(res[..0], ck)) == cres
  {
    assert res[..0] == [] && res[0..] == res;
  }

  lemma DeliverEnd(res: seq<Resource>, ck: PlaceKind, cres: seq<Resource>)
    ensures Kept(res[..|res|], ck) + res[|res|..] == Kept(res, ck)
    ensures Handed(res[..|res|], ck) == Handed(res, ck)
  {
    assert res[..|res|] == res && res[|res|..] == [];
  }

  lemma DeliverAdvance(res: seq<Resource>, i: nat, ck: PlaceKind, cres: seq<Resource>,
                       k0: seq<Resource>, s0: seq<Resource>, p0: nat, kept: seq<Resource>, stored: seq<Resource>, pos: nat)
    requires i < |res| && p0 == |Kept(res[..i], ck)|
    requires k0 == Kept(res[..i], ck) + res[i..] && s0 == InsertAll(ck, cres, Handed(res[..i], ck))
    requires p0 < |k0| && Delivered(k0, s0, p0, res[i], ck, kept, stored, pos)
    ensures pos == |Kept(res[..i + 1], ck)|
    ensures kept == Kept(res[..i + 1], ck) + res[i + 1..]
    ensures stored == InsertAll(ck, cres, Handed(res[..i + 1], ck))
  {
    SuffixSplit(res, i);
    DeliverStep(res, i, ck, cres);
    AdvanceOn(Kept(res[..i], ck), res[i], res[i + 1..], Kept(res[..i + 1], ck),
      k0, s0, InsertAll(ck, cres, Handed(res[..i + 1], ck)), ck, kept, stored, pos);
  }

  /** One pass of the delivery loop over the live buffer before + [r] + rest. */
  lemma AdvanceOn(before: seq<Resource>, r: Resource, rest: seq<Resource>, after: seq<Resource>,
                  k0: seq<Resource>, s0: seq<Resource>, s1: seq<Resource>, ck: PlaceKind,
                  kept: seq<Resource>, stored: seq<Resource>, pos: nat)
    requires k0 == before + ([r] + rest)
    requires after == before + (if Uses(ck, KindOf(r)) then [] else [r])
    requires s1 == (if Uses(ck, KindOf(r)) then Insert(ck, s0, r).inventory else s0)
    requires |before| < |k0| && Delivered(k0, s0, |before|, r, ck, kept, stored, pos)
    ensures pos == |after| && kept == after + rest && stored == s1
  {
    assert k0[..|before|] == before && k0[|before| + 1..] == rest;
    assert before + [] == before;
  }

  /** One more entry delivered: a used one goes into the container, any other stays. */
  lemma DeliverStep(res: seq<Resource>, i: nat, ck: PlaceKind, cres: seq<Resource>)
    requires i < |res|
    ensures var r := res[i];
      var stored := InsertAll(ck, cres, Handed(res[..i], ck));
      && Kept(res[..i + 1], ck) == Kept(res[..i], ck) + (if Uses(ck, KindOf(r)) then [] else [r])
      && InsertAll(ck, cres, Handed(res[..i + 1], ck)) == (if Uses(ck, KindOf(r)) then Insert(ck, stored, r).inventory else stored)
  {
    var r := res[i];
    var handed := Handed(res[..i], ck);
    assert res[..i + 1][..i] == res[..i];
    if Uses(ck, KindOf(r)) {
      assert Handed(res[..i + 1], ck) == handed + [r];
      assert (handed + [r])[..|handed|] == handed;
    } else {
      assert Handed(res[..i + 1], ck) == handed;
    }
  }

  /** The per-class body of use_resources on a buffer; None where the source's thread dies on an exception. */
  method Produce(k: PlaceKind, res: seq<Resource>, accident: nat -> bool, delta: real) returns (out: Option<seq<Resource>>)
    requires IsNode(k)
    ensures out == UseOutcome(k, res, accident, delta)
  {
    match k {
    case Factory =>
      if |res| == 0 || !res[0].Worker? {
        out := None;
      } else {
        var buf := Work(res, accident, true, Product);
        out := Some(buf);
      }
    case Field =>
      if |res| == 0 || !res[0].Worker? {
        out := None;
      } else {
        var buf := Work(res, accident, false, Food);
        out := Some(buf);
      }
    case Flat =>
      var grown: seq<Resource>;
      if Count(res, WorkerKind) == 2 {
        grown := res + [Worker(FullViability)];
      } else {
        grown := Feed(res);
      }
      out := Some(WithoutProducts(grown));
    case Diner =>
      out := Dine(res, delta);
    }
  }

  /** The arena of place objects and `Place.PLACE_COUNTER`. */
  /**
   * qs is ps with one more place at the end: the unlinked place of the class
   * record j names that `from_json` abandons when a saved resource does not decode.
   */
  predicate Abandoned(ps: seq<Place>, qs: seq<Place>, j: PlaceJson) {
    && |qs| == |ps| + 1 && qs[..|ps|] == ps
    && qs[|ps|].ingoing == [] && qs[|ps|].outgoing == []
    && KindName(qs[|ps|].kind) == j.typeName && DecodeAll(j.resources).Err?
  }

  /**
   * Putting the next saved resource of record j through `insert` takes the
   * place being loaded from the first i saved resources, re-inserted, to the
   * first i + 1.
   */
  lemma RefillStep(k: PlaceKind, j: PlaceJson, fallback: int, i: nat, r: Resource)
    requires i < |j.resources| && DecodeAll(j.resources[..i]).Ok? && FromJson(j.resources[i]) == Ok(r)
    ensures DecodeAll(j.resources[..i + 1]).Ok?
    ensures var p := Reconstructed(k, j, fallback, Reloaded(k, DecodeAll(j.resources[..i]).value));
      p.(resources := Places.Insert(k, p.resources, r).inventory)
        == Reconstructed(k, j, fallback, Reloaded(k, DecodeAll(j.resources[..i + 1]).value))
  {
    DecodeAllStep(j.resources, i);
    ReloadedStep(k, DecodeAll(j.resources[..i]).value, r);
  }

  /** A saved resource that does not decode leaves the half-filled place abandoned, and the record does not load. */
  lemma RefillStops(ps0: seq<Place>, k: PlaceKind, j: PlaceJson, fallback: int, i: nat, ps: seq<Place>)
    requires KindFromName(j.typeName) == Some(k)
    requires i < |j.resources| && DecodeAll(j.resources[..i]).Ok? && FromJson(j.resources[i]).Err?
    requires ps == ps0 + [Reconstructed(k, j, fallback, Reloaded(k, DecodeAll(j.resources[..i]).value))]
    ensures Abandoned(ps0, ps, j) && PlaceFromJsonAsWritten(j, fallback).Err?
  {
    assert ps[..|ps0|] == ps0;
    KindNameRoundTrip(k);
  }

  /** Once every saved resource is re-inserted, the place at the end of ps is the one `from_json` returns. */
  lemma RefillDone(ps0: seq<Place>, k: PlaceKind, j: PlaceJson, fallback: int, ps: seq<Place>)
    requires KindFromName(j.typeName) == Some(k) && DecodeAll(j.resources[..|j.resources|]).Ok?
    requires ps == ps0 + [Reconstructed(k, j, fallback, Reloaded(k, DecodeAll(j.resources[..|j.resources|]).value))]
    ensures PlaceFromJsonAsWritten(j, fallback).Ok? && ps == ps0 + [PlaceFromJsonAsWritten(j, fallback).value]
  {
    assert j.resources[..|j.resources|] == j.resources;
  }

  class World {
    var places: seq<Place>
    var counter: int

    ghost predicate Valid()
      reads this
    {
      Wf(places)
    }

    constructor ()
      ensures places == [] && counter == 0
      ensures Valid()
    {
      places := [];
      counter := 0;
    }

    /**
     * `kind()` followed by `set_position((cx, cy))`: a new place takes the
     * next serial number and is centred on the point.
     */
    method AddPlace(k: PlaceKind, cx: real, cy: real) returns (id: nat)
      requires Valid()
      modifies this
      ensures Valid()
      ensures id == |old(places)| && places == old(places) + [NewPlace(k, old(counter), cx, cy)]
      ensures counter == old(counter) + 1
    {
      id := |places|;
      places := places + [NewPlace(k, counter, cx, cy)];
      counter := counter + 1;
      AppendUnlinkedWf(old(places), NewPlace(k, old(counter), cx, cy));
    }

    /** `set_index(i)`. */
    method SetIndex(id: nat, i: int)
      requires Valid() && id < |places|
      modifies this
      ensures Valid()
      ensures places == old(places)[id := old(places)[id].(index := i)] && counter == old(counter)
    {
      places := places[id := places[id].(index := i)];
      SameShapeWf(old(places), places);
    }

    /**
     * `Place.from_json(json)`: an unknown class name is a KeyError before any
     * object exists; otherwise the place is created with the saved index, or
     * the next serial number when that is 0, and an empty buffer, and each
     * saved resource is decoded and put back through `insert`. A resource that
     * does not decode is a KeyError that abandons the half-filled place.
     */
    method LoadPlace(j: PlaceJson) returns (r: Result<nat>)
      requires Valid()
      modifies this
      ensures Valid()
      ensures r.Ok? <==> PlaceFromJsonAsWritten(j, old(counter)).Ok?
      ensures r.Ok? ==> r.value == |old(places)| && places == old(places) + [PlaceFromJsonAsWritten(j, old(counter)).value]
      ensures r.Err? ==> places == old(places) || Abandoned(old(places), places, j)
      ensures counter == if KindFromName(j.typeName).Some? && j.index == 0 then old(counter) + 1 else old(counter)
    {
      var kind := KindFromName(j.typeName);
      if kind.None? {
        return Err("KeyError");
      }
      var k := kind.value;
      var fallback := counter;
      if j.index == 0 {
        counter := counter + 1;
      }
      var id := |places|;
      AppendUnlinkedWf(places, Reconstructed(k, j, fallback, []));
      places := places + [Reconstructed(k, j, fallback, [])];
      assert j.resources[..0] == [];
      var i := 0;
      while i < |j.resources|
        invariant 0 <= i <= |j.resources| && Valid() && |places| == id + 1
        invariant counter == if j.index == 0 then old(counter) + 1 else old(counter)
        invariant DecodeAll(j.resources[..i]).Ok?
        invariant places == old(places) + [Reconstructed(k, j, fallback, Reloaded(k, DecodeAll(j.resources[..i]).value))]
      {
        var res := FromJson(j.resources[i]);
        if res.Err? {
          RefillStops(old(places), k, j, fallback, i, places);
          return Err(res.error);
        }
        ghost var before := places;
        var _ := Insert(id, res.value);
        SameShapeWf(before, places);
        RefillStep(k, j, fallback, i, res.value);
        assert places == old(places) + [places[id]];
        i := i + 1;
      }
      RefillDone(old(places), k, j, fallback, places);
      r := Ok(id);
    }

    // ---- connections (units.py:230-281) ----

    /** `a.connect_outgoing(b)`: b is appended to a's outgoing list unless already there. */
    method ConnectOutgoing(a: nat, b: nat)
      requires a < |places|
      modifies this
      ensures places == old(places)[a := old(places)[a].(outgoing := AddIfAbsent(old(places)[a].outgoing, b))]
      ensures counter == old(counter)
    {
      if b !in places[a].outgoing {
        places := places[a := places[a].(outgoing := places[a].outgoing + [b])];
      }
    }

    /** `a.connect_ingoing(b)`: b is appended to a's ingoing list unless already there. */
    method ConnectIngoing(a: nat, b: nat)
      requires a < |places|
      modifies this
      ensures places == old(places)[a := old(places)[a].(ingoing := AddIfAbsent(old(places)[a].ingoing, b))]
      ensures counter == old(counter)
    {
      if b !in places[a].ingoing {
        places := places[a := places[a].(ingoing := places[a].ingoing + [b])];
      }
    }

    /** `a.connect_place(b)`. */
    method ConnectPlace(a: nat, b: nat)
      requires Valid() && a < |places| && b < |places|
      modifies this
      ensures Valid()
      ensures places == Connect(old(places), a, b) && counter == old(counter)
    {
      ConnectEdges(places, a, b);
      if a == b {
        return;
      }
      ConnectOutgoing(a, b);
      ConnectIngoing(b, a);
    }

    /**
     * `a.disconnect_place(b)`, recursive as in the source: each side removes
     * the other from whichever of its lists holds it and asks the other side
     * to do the same. It needs only duplicate-free lists without self-links
     * at a and b, which the intermediate states keep.
     */
    method DisconnectPlace(a: nat, b: nat)
      requires a < |places| && b < |places| && LinksOk(places, a) && LinksOk(places, b)
      modifies this
      ensures places == Severed(old(places), a, b) && counter == old(counter)
      decreases |places[a].ingoing| + |places[a].outgoing| + |places[b].ingoing| + |places[b].outgoing|
    {
      if b in places[a].ingoing {
        places := places[a := places[a].(ingoing := Remove(places[a].ingoing, b))];
        DisconnectPlace(b, a);
      }
      if b in places[a].outgoing {
        places := places[a := places[a].(outgoing := Remove(places[a].outgoing, b))];
        DisconnectPlace(b, a);
      }
    }

    /** `p.disconnect_all_connections()`: every neighbour, ingoing then outgoing, disconnects from p. */
    method DisconnectAllConnections(p: nat)
      requires Valid() && p < |places|
      modifies this
      ensures Valid()
      ensures places == Isolate(old(places), p) && counter == old(counter)
    {
      ghost var ps := places;
      var nbrs := places[p].ingoing + places[p].outgoing;
      var i := 0;
      while i < |nbrs|
        invariant 0 <= i <= |nbrs| && counter == old(counter)
        invariant IsolatedUpTo(ps, places, p, nbrs[..i])
      {
        var q := nbrs[i];
        IsolateStep(ps, places, p, nbrs[..i], q);
        DisconnectPlace(q, p);
        assert nbrs[..i + 1] == nbrs[..i] + [q];
        i := i + 1;
      }
      assert nbrs[..i] == nbrs;
      IsolatedAll(ps, places, p);
    }

    // ---- resources ----

    /** `place.insert(r)`, per class, as its isinstance filter and (for a Road) the damage on entry say. */
    method Insert(id: nat, r: Resource) returns (accepted: bool)
      requires id < |places|
      modifies this
      ensures var o := Places.Insert(old(places)[id].kind, old(places)[id].resources, r);
        accepted == o.accepted && places == old(places)[id := old(places)[id].(resources := o.inventory)]
      ensures !accepted ==> places == old(places)
      ensures counter == old(counter)
    {
      var p := places[id];
      var takes := match p.kind
        case Factory | Field | Road => r.Worker?
        case Flat => r.Worker? || r.Product?
        case Diner => r.Worker? || r.Food?
        case Magazine => r.Product?
        case Barn => r.Food?;
      if !takes {
        return false;
      }
      if p.kind == Road {
        var dead := Damage(r.viability, RoadDamagePerWorker * |p.resources| as real);
        if !dead.dead {
          places := places[id := p.(resources := p.resources + [Worker(dead.viability)])];
        } else {
          places := places[id := p];
        }
      } else {
        places := places[id := p.(resources := p.resources + [r])];
      }
      return true;
    }

    /** `container.place_resource(node)`. */
    method PlaceResource(c: nat, n: nat) returns (ok: bool)
      requires c < |places| && n < |places| && !IsNode(places[c].kind) && IsNode(places[n].kind)
      modifies this
      ensures (places, ok) == PlaceResourceSpec(old(places), c, n) && counter == old(counter)
    {
      ghost var ps := places;
      var cres := places[c].resources;
      var i := 0;
      while i < |cres|
        invariant 0 <= i <= |cres|
        invariant places == ps && counter == old(counter)
        invariant forall j :: 0 <= j < i ==> !Uses(ps[n].kind, KindOf(cres[j]))
      {
        var accepted := Insert(n, cres[i]);
        if accepted {
          PlaceResourceFound(ps, c, n, i);
          places := places[c := places[c].(resources := RemoveAt(places[c].resources, i))];
          return true;
        }
        i := i + 1;
      }
      PlaceResourceAvailable(ps, c, n);
      return false;
    }

    /**
     * `for place in self._ingoing_connections: if isinstance(place, sources) and place.place_resource(self): break`
     * for node n; whether a resource moved.
     */
    method PullFrom(n: nat, sources: set<PlaceKind>) returns (ok: bool)
      requires Valid() && n < |places| && IsNode(places[n].kind)
      requires forall k :: k in sources ==> !IsNode(k)
      modifies this
      ensures Valid()
      ensures IdsIn(old(places), old(places)[n].ingoing)
      ensures (places, ok) == Pull(old(places), n, old(places)[n].ingoing, sources)
      ensures counter == old(counter)
    {
      WfIds(places, n);
      var nbrs := places[n].ingoing;
      var i := 0;
      while i < |nbrs|
        invariant 0 <= i <= |nbrs|
        invariant places == old(places) && counter == old(counter)
        invariant Pull(places, n, nbrs, sources) == Pull(places, n, nbrs[i..], sources)
      {
        var c := nbrs[i];
        assert nbrs[i..][1..] == nbrs[i + 1..];
        if places[c].kind in sources {
          ok := PlaceResource(c, n);
          if ok {
            SameShapeWf(old(places), places);
            return;
          }
        }
        i := i + 1;
      }
      return false;
    }

    /** `node.get_resources()` for node n, per class; whether it is ready to work. */
    method GetResources(n: nat, stopDraw: bool) returns (ok: bool)
      requires Valid() && n < |places| && IsNode(places[n].kind)
      modifies this
      ensures Valid() && counter == old(counter)
      ensures IdsIn(old(places), old(places)[n].ingoing)
      ensures (places, ok) == GetSpec(old(places), n, stopDraw)
    {
      WfIds(places, n);
      var res := places[n].resources;
      var moved: bool;
      match places[n].kind
      case Factory | Field =>
        if |res| == 0 {
          moved := PullFrom(n, Containers);
        }
        ok := Count(places[n].resources, WorkerKind) > 0;
      case Flat =>
        var products, workers := Count(res, ProductKind), Count(res, WorkerKind);
        if products == 0 {
          moved := PullFrom(n, {Magazine});
        } else if workers == 0 {
          // `for _ in range(2)`: the second round runs unless the draw stops it or two Workers are in
          moved := PullFrom(n, {Road});
          if !(stopDraw || Count(places[n].resources, WorkerKind) > 1) {
            moved := PullFrom(n, {Road});
          }
        }
        ok := products == 1 && (workers == 1 || workers == 2);
      case Diner =>
        var food, workers := Count(res, FoodKind), Count(res, WorkerKind);
        if food == 0 {
          moved := PullFrom(n, {Barn});
        }
        if workers == 0 {
          moved := PullFrom(n, {Road});
        }
        ok := food > 0 && workers > 0;
    }

    /**
     * `node.use_resources()` for node n, run to completion: `_working` is set,
     * the buffer reworked per class, and the flags updated; where the source's
     * thread dies on an exception only `_working` has changed.
     */
    method UseResources(n: nat, accident: nat -> bool, delta: real)
      requires Valid() && n < |places| && IsNode(places[n].kind)
      modifies this
      ensures Valid() && counter == old(counter)
      ensures places == old(places)[n := Used(old(places)[n], accident, delta)]
    {
      var ps := places;
      var p := ps[n].(working := true);
      places := ps[n := p];
      var out := Produce(p.kind, p.resources, accident, delta);
      if out.Some? {
        places := ps[n := p.(resources := out.value, working := false, hasWaiting := true)];
      }
      SameShapeWf(ps, ps[n := Used(ps[n], accident, delta)]);
    }

    /**
     * `node.update()` at time now: a node that is idle, has nothing waiting and
     * whose cool-down has passed gets resources and, if they suffice, works.
     */
    method NodeUpdate(n: nat, now: real, accident: nat -> bool, delta: real, stopDraw: bool)
      requires Valid() && n < |places| && IsNode(places[n].kind)
      modifies this
      ensures Valid() && counter == old(counter)
      ensures IdsIn(old(places), old(places)[n].ingoing)
      ensures places == NodeUpdateSpec(old(places), n, now, accident, delta, stopDraw)
    {
      WfIds(places, n);
      var p := places[n];
      if !p.working && !p.hasWaiting && p.nextAvailable - now < 0.0 {
        var ok := GetResources(n, stopDraw);
        if ok {
          UseResources(n, accident, delta);
        }
      }
    }

    /** `node.give_resources(container)`. */
    method GiveResources(n: nat, c: nat, now: real)
      requires Valid() && n < |places| && c < |places| && IsNode(places[n].kind) && !IsNode(places[c].kind)
      modifies this
      ensures Valid() && counter == old(counter)
      ensures places == GiveStep(old(places), n, c, now)
    {
      var ps := places;
      if ps[n].hasWaiting {
        var kept, stored := Deliver(ps[n].resources, ps[c].kind, ps[c].resources);
        GaveStep(ps, n, c, now);
        places := ps[c := ps[c].(resources := stored)]
          [n := ps[n].(resources := kept, hasWaiting := |kept| != 0, nextAvailable := now + DeliveryCooldown)];
      }
    }

    /** `container.update()`: every ingoing Node gives to container c, in order. */
    method ContainerUpdate(c: nat, now: real)
      requires Valid() && c < |places| && !IsNode(places[c].kind)
      modifies this
      ensures Valid() && counter == old(counter)
      ensures IdsIn(old(places), old(places)[c].ingoing)
      ensures places == GiveAll(old(places), c, old(places)[c].ingoing, now)
    {
      WfIds(places, c);
      var nbrs := places[c].ingoing;
      var i := 0;
      while i < |nbrs|
        invariant 0 <= i <= |nbrs|
        invariant IdsIn(old(places), nbrs) && IdsIn(old(places), nbrs[..i])
        invariant places == GiveAll(old(places), c, nbrs[..i], now)
        invariant Valid() && counter == old(counter)
      {
        GiveAllStep(old(places), c, nbrs, i, now);
        if IsNode(places[nbrs[i]].kind) {
          GiveResources(nbrs[i], c, now);
        }
        i := i + 1;
      }
      assert nbrs[..i] == nbrs;
    }

    /** `place.update()`: a Node's or a Container's, by the kind of place id. */
    method Update(id: nat, now: real, accident: nat -> bool, delta: real, stopDraw: bool)
      requires Valid() && id < |places|
      modifies this
      ensures Valid() && counter == old(counter)
      ensures IdsIn(old(places), old(places)[id].ingoing)
      ensures places == if IsNode(old(places)[id].kind) then NodeUpdateSpec(old(places), id, now, accident, delta, stopDraw)
                        else GiveAll(old(places), id, old(places)[id].ingoing, now)
    {
      if IsNode(places[id].kind) {
        NodeUpdate(id, now, accident, delta, stopDraw);
      } else {
        ContainerUpdate(id, now);
      }
    }
  }

  /** One more neighbour of the container's ingoing list has given. */
  lemma GiveAllStep(ps: seq<Place>, c: nat, nbrs: seq<nat>, i: nat, now: real)
    requires c < |ps| && !IsNode(ps[c].kind) && IdsIn(ps, nbrs) && i < |nbrs|
    ensures IdsIn(ps, nbrs[..i + 1])
    ensures GiveAll(ps, c, nbrs[..i + 1], now) == GiveStep(GiveAll(ps, c, nbrs[..i], now), nbrs[i], c, now)
  {
    assert nbrs[..i + 1][..i] == nbrs[..i];
  }

  /** The arena after a node with waiting resources gives to a container, spelt out as the method builds it. */
  lemma GaveStep(ps: seq<Place>, n: nat, c: nat, now: real)
    requires Wf(ps) && n < |ps| && c < |ps| && IsNode(ps[n].kind) && !IsNode(ps[c].kind) && ps[n].hasWaiting
    ensures var kept := Kept(ps[n].resources, ps[c].kind);
      var qs := ps[c := ps[c].(resources := InsertAll(ps[c].kind, ps[c].resources, Handed(ps[n].resources, ps[c].kind)))]
        [n := ps[n].(resources := kept, hasWaiting := |kept| != 0, nextAvailable := now + DeliveryCooldown)];
      GiveStep(ps, n, c, now) == qs && Wf(qs)
  {
    SameShapeWf(ps, GiveStep(ps, n, c, now));
  }

  /**
   * The state partway through disconnect_all_connections: the neighbours in
   * done have dropped p and p has dropped them, nothing else has changed.
   */
  ghost predicate IsolatedUpTo(ps: seq<Place>, cur: seq<Place>, p: nat, done: seq<nat>)
    requires p < |ps|
  {
    && |cur| == |ps| && Wf(cur)
    && (forall x :: 0 <= x < |ps| && x != p ==> cur[x] == if x in done then Detach(ps[x], p) else ps[x])
    && Unlinked(cur[p]) == Unlinked(ps[p])
    && (forall y :: y in cur[p].ingoing <==> y in ps[p].ingoing && y !in done)
    && (forall y :: y in cur[p].outgoing <==> y in ps[p].outgoing && y !in done)
  }

  /** One more neighbour q of p disconnecting from p. */
  lemma IsolateStep(ps: seq<Place>, cur: seq<Place>, p: nat, done: seq<nat>, q: nat)
    requires Wf(ps) && p < |ps| && IsolatedUpTo(ps, cur, p, done)
    requires q in ps[p].ingoing || q in ps[p].outgoing
    ensures q < |ps| && q != p && LinksOk(cur, q) && LinksOk(cur, p)
    ensures IsolatedUpTo(ps, Severed(cur, q, p), p, done + [q])
  {
    assert LinksOk(ps, p);
    assert LinksOk(ps, q);
    assert LinksOk(cur, q) && LinksOk(cur, p);
    var next := Severed(cur, q, p);
    SeveredEdges(cur, q, p);
    if q in done {
      assert p !in cur[q].ingoing && p !in cur[q].outgoing;
      assert next == cur;
    } else {
      assert cur[q] == ps[q];
      assert Related(cur[q], p);
      assert next[q] == Detach(ps[q], p);
    }
    forall x | 0 <= x < |ps| && x != p
      ensures next[x] == if x in done + [q] then Detach(ps[x], p) else ps[x]
    {
    }
    assert Unlinked(next[p]) == Unlinked(ps[p]) by {
      assert Unlinked(next[p]) == Unlinked(cur[p]);
    }
  }

  /** After every neighbour has disconnected, the arena is p isolated. */
  lemma IsolatedAll(ps: seq<Place>, cur: seq<Place>, p: nat)
    requires Wf(ps) && p < |ps| && IsolatedUpTo(ps, cur, p, ps[p].ingoing + ps[p].outgoing)
    ensures cur == Isolate(ps, p)
  {
    var nbrs := ps[p].ingoing + ps[p].outgoing;
    forall x | 0 <= x < |ps| ensures cur[x] == Isolate(ps, p)[x] {
      if x == p {
        if cur[p].ingoing != [] {
          HeadIn(cur[p].ingoing);
          assert false;
        }
        if cur[p].outgoing != [] {
          HeadIn(cur[p].outgoing);
          assert false;
        }
      } else if x !in nbrs {
        assert p !in ps[x].ingoing && p !in ps[x].outgoing;
      }
    }
  }
}
