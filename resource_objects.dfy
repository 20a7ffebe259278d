/**
 * The stand-alone Worker object of resource.py: a mutable viability field
 * updated in place by restore_viability, add_viability and damage. The update
 * rules are the functions of module Resources, shared with the Workers held in
 * place buffers.
 */
module ResourceObjects {
  import opened Wrappers
  import Resources

  class Worker {
    var viability: real

    /** `Worker()`: full viability. */
    constructor ()
      ensures viability == Resources.FullViability
    {
      viability := Resources.FullViability;
    }

    /** `Worker(viability=v)`. */
    constructor WithViability(v: real)
      ensures viability == v
    {
      viability := v;
    }

    method RestoreViability(v: real)
      modifies this
      ensures viability == Resources.Restored(v)
      ensures viability <= Resources.FullViability
    {
      viability := if v < Resources.FullViability then v else Resources.FullViability;
    }

    method AddViability(d: real)
      modifies this
      ensures viability == Resources.Added(old(viability), d)
      ensures viability <= Resources.FullViability
    {
      viability := viability + d;
      if viability > Resources.FullViability {
        viability := Resources.FullViability;
      }
    }

    method Damage(d: real) returns (dead: bool)
      modifies this
      ensures viability == old(viability) - d
      ensures dead <==> viability <= 0.0
      ensures Resources.Damage(old(viability), d) == Resources.DamageOutcome(viability, dead)
    {
      viability := viability - d;
      dead := viability <= 0.0;
    }

    /** `json()`: the saved record of this Worker. */
    method Json() returns (j: Resources.ResourceJson)
      ensures j == Resources.ResourceJson("Worker", Some(viability))
      ensures Resources.FromJson(j) == Ok(Resources.Worker(viability))
    {
      j := Resources.ResourceJson("Worker", Some(viability));
    }
  }

  /** A Worker saved and loaded again has the viability it was saved with. */
  method SaveAndLoad(w: Worker) returns (copy: Worker)
    ensures fresh(copy) && copy.viability == w.viability
  {
    var j := w.Json();
    var loaded := Resources.FromJson(j);
    copy := new Worker.WithViability(loaded.value.viability);
  }
}
