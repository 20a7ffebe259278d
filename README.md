# SimSims: the place graph and resource engine, in Dafny

SimSims is a small simulation game. The player builds **places** on a map and
connects them with directed links. Three kinds of **resource** flow along those
links: Workers, Food and Products.

- **Nodes** work on the resources they hold:
  - a Factory turns Workers into Products;
  - a Field turns Workers into Food;
  - a Flat rests Workers and breeds new ones;
  - a Diner feeds Workers.
- **Containers** store resources between Nodes:
  - a Magazine holds Products;
  - a Barn holds Food;
  - a Road holds Workers and wears them down on entry.
- A Node pulls what it needs from its ingoing containers (`get_resources`).
  It works on its buffer (`use_resources`). Each container then collects from
  its ingoing Nodes whatever it stores (`Container.update` and
  `give_resources`).
- The `Map` is the editor. It keeps the list of places and three selections:
  - a class to build;
  - a resource kind to place;
  - a selected place.

  It builds, connects, disconnects and deletes places, and it saves and loads
  the whole map as records.

This project models that core and proves its properties.

## Modules

- **`Resources`** (`resource.dfy`): the resource kinds and a Worker's
  viability.
  - The viability rules: `restore_viability`, `add_viability` and `damage`.
  - A resource's saved record and how it is read back.
  - `units.py` and `resource.py` carry identical copies of these classes.
    Rows cite `resource.py`.
- **`ResourceObjects`** (`resource_objects.dfy`): the stand-alone `Worker` of
  `resource.py`. It is a class whose methods update its viability in place.
- **`Seqs`** (`seqs.dfy`): the Python list operations the source relies on:
  - append-if-absent;
  - `list.remove`, which drops only the first occurrence;
  - removal at a position.
- **`Places`** (`places.dfy`): everything about one place that does not involve
  its neighbours:
  - the place classes and their `uses` and `produces` tables;
  - the per-class `insert` filters, including the Road's damage;
  - the per-class production step;
  - the split a delivery makes;
  - the saved record of a place.
- **`Graph`** (`graph.dfy`): the places of a world as a whole.
  - Places live in an arena `ps`. An arena is a list of places in which a
    place's id is its position, and links hold ids.
  - Covered: the connection graph, `has_required_connections`,
    `place_resource`, the pulls of `get_resources`, `Node.update` and
    `Container.update`.
  - These are specified as functions over the arena, with lemmas on conservation
    of the total stock and on what each step may change.
- **`Units`** (`units.dfy`): the imperative side of `units.py`.
  - `World` is a class that holds the arena and the class-wide serial counter
    `Place.PLACE_COUNTER`.
  - Its methods change places in place, in the same order of steps as the
    source, and each is proved against the `Graph` and `Places` specification.
  - The module-level methods (`Work`, `Feed`, `Dine`, `Deliver`) are the
    source's loops over one resource buffer.
- **`MapSaves`** (`map_saves.dfy`): the saved form of a map as functions.
  - The renumbering that `Map.json` performs and the records it returns.
  - The arena that `load_json` rebuilds in two passes.
  - The round trip between the two: `MapSaves.SaveLoadRoundTrip`. Classes
    and links come back for every place, but not the order of the link
    lists (see "Left out"). Buffers come back re-inserted
    through `insert`, as `Place.from_json` does, so a buffer returns unchanged
    exactly when it is intact (`Places.Intact`).
- **`SimMap`** (`map.dfy`): the `Map` class.
  - Its `order` field is `Map._places`, as arena ids. Its `world` field holds
    the arena.
  - Its invariant: the list names distinct places, and every outgoing link of
    a listed place leads to a listed place. Saving needs this.

## Modelling choices

- **Objects.** Every place object ever created is one entry of the arena.
  - A place deleted from the map stays in the arena, as the Python object stays
    alive while the map's selection still refers to it.
  - Connection lists hold arena ids.
  - A resource is a value. `list.remove(resource)` removes by position, which is
    the position of the object the source's loop is looking at.
- **Numbers.** Viability and positions are Python floats in the source. Here
  they are exact `real`s.
- **Randomness and time** are parameters:
  - `accident(i)` is the accident draw for the i-th buffer entry of a Factory
    or Field;
  - `stopDraw` says whether the Flat's second-Worker draw ended its loop;
  - `delta` is the viability the Diner's food gives;
  - `now` is `time.time()`.
- **Threads.** `Node.update` starts `use_resources` on a thread. Here the step
  runs to completion inside the update.
  - An exception that would end the thread leaves the place with `_working`
    set and its buffer untouched. Such exceptions are:
    - the `IndexError` of a Factory or Field with an empty buffer, or of a
      Diner without a Worker or without a Food;
    - the `AttributeError` of a Factory or Field whose first entry is not a
      Worker.
- **Errors.** A `KeyError` while loading is an `Err` result, or `ok == false`.
  The source raises one on:
  - an unknown class name;
  - an `out` entry that is not a saved index.

## Behaviour the code fixes that a reader might not expect

- **Selections.** `select_building_at` does not clear the build type or the
  resource type, unlike `select_build_type` and `select_resource_type`, so the
  three selections are not mutually exclusive.
  `SimMap.Map.SelectBuildingAt` states what the code does. `build` then
  dispatches by priority: build type, then resource type, then selected place.
- **Diner.** `Worker.add_viability` returns `None`, so the Diner's
  `if worker.add_viability(...)` never removes the Worker, whatever its
  comment about poisoned food says. A Diner consumes
  exactly one Food and keeps every Worker.
- **No tick.** `Map` has no method that advances the simulation. The per-place
  `update` methods are modelled in `Units.World`.

## Model

| member | source | states |
|---|---|---|
| `Resources.NewResource` | sim_assets/resource.py:34-82 | `Worker()`, `Food()` and `Product()` give a resource of the requested kind, and a Worker made without a viability has viability 1 |
| `Resources.Count` | sim_assets/units.py:215-228 | the count of a kind is at most the buffer length; it is 0 exactly when no entry has that kind, and the full length exactly when every entry has it |
| `Resources.CountAppend` | sim_assets/units.py:215-228 | counting over two buffers joined together is the sum of the two counts |
| `Resources.CountRemoveAt` | sim_assets/units.py:624-630 | taking one entry out of a buffer lowers the count of that entry's kind by one and leaves every other count unchanged |
| `Resources.CountUpdate` | sim_assets/units.py:477-479 | replacing an entry by one of the same kind, such as a Worker fed to a new viability, changes no count |
| `Resources.Restored` | sim_assets/resource.py:46-50 | `restore_viability(v)` gives min(1, v): never above 1, never above v, and either v or 1 |
| `Resources.Added` | sim_assets/resource.py:52-58 | `add_viability(d)` never leaves viability above 1; it gives v + d when that is at most 1 and 1 otherwise |
| `Resources.Damage` | sim_assets/resource.py:60-65 | `damage(d)` lowers viability by exactly d and reports death exactly when the result is at most 0 |
| `Resources.AddedIsRestoredSum` | sim_assets/resource.py:46-58 | adding d is the same as restoring to v + d, so the two updates agree |
| `Resources.AddedMonotone` | sim_assets/resource.py:52-58 | feeding a Worker at or below the cap by a non-negative amount never lowers its viability, and a second feed still stays at or below 1 |
| `Resources.ToJson` | sim_assets/resource.py:18-26 | the record carries the class name of the resource's kind, and it carries a viability exactly for a Worker |
| `Resources.FromJson` | sim_assets/resource.py:28-32 | reading a record succeeds exactly when its name is one of the three resource classes, and gives a resource of that class; a Worker without a saved viability gets 1 |
| `Resources.JsonRoundTrip` | sim_assets/resource.py:18-42 | reading back the record of any resource gives that same resource, a Worker with its viability |
| `ResourceObjects.Worker.constructor` | sim_assets/resource.py:38-42 | a Worker made without a viability starts at 1 |
| `ResourceObjects.Worker.WithViability` | sim_assets/resource.py:38-42 | a Worker made with a viability starts at that value |
| `ResourceObjects.Worker.RestoreViability` | sim_assets/resource.py:46-50 | the field becomes min(1, v), so it is never above 1 afterwards |
| `ResourceObjects.Worker.AddViability` | sim_assets/resource.py:52-58 | the field becomes the clamped sum, so it is never above 1 afterwards |
| `ResourceObjects.Worker.Damage` | sim_assets/resource.py:60-65 | the field drops by exactly d, and the returned flag is true exactly when the new value is at most 0 |
| `ResourceObjects.Worker.Json` | sim_assets/resource.py:18-26 | the record names the class Worker with the current viability, and reading it back gives a Worker of that viability |
| `ResourceObjects.SaveAndLoad` | sim_assets/resource.py:18-42 | saving a Worker and loading the record gives a new Worker object with the same viability |
| `Seqs.AddIfAbsent` | sim_assets/units.py:239-251 | afterwards x is in the list and nothing else was added; the list is unchanged if x was there and has x appended otherwise; a list without repeats keeps none |
| `Seqs.Remove` | sim_assets/units.py:253-262 | `list.remove(x)` changes nothing when x is absent and otherwise drops one entry, keeping every other member; in a list without repeats x is gone afterwards; which entry goes and the order of the rest are stated by `Seqs.RemoveFirst` |
| `Seqs.RemoveFirst` | sim_assets/units.py:253-262 | `list.remove(x)` on a list holding x takes out exactly the first occurrence and keeps every other entry in its order |
| `Seqs.RemoveAt` | sim_assets/units.py:624-630 | dropping the entry at i keeps the entries before and after it in order, and the multiset loses exactly that entry |
| `Places.ContainerSingleKind` | sim_assets/units.py:637-660 | a Magazine, Barn or Road uses exactly one kind and produces exactly the kind it uses |
| `Places.KindFromName` | sim_assets/units.py:673 | a class name is found exactly when some place class has that name, and the class found has it |
| `Places.KindNameRoundTrip` | sim_assets/units.py:673 | every place class is found under its own name |
| `Places.NewPlace` | sim_assets/units.py:102-118 | a place built by the editor has the given class and serial number, is centred on the point, and holds no resources, no links and no set flags |
| `Places.Insert` | sim_assets/units.py:420-671 | `insert` accepts a resource exactly when the class uses its kind and rejects with the buffer unchanged otherwise; an accepted resource is appended, except on a Road, where a Worker damaged by 0.02 per resource already held is appended only if it survives |
| `Places.ContainerAcceptsOneKind` | sim_assets/units.py:641-671 | a Magazine accepts only Products, a Barn only Food and a Road only Workers |
| `Places.RoadScenario` | sim_assets/units.py:657-671 | a Road always reports success for a Worker; the Worker is dropped when 0.02 times the Road's occupancy is lethal and is kept at the reduced viability otherwise |
| `Places.FirstAccepted` | sim_assets/units.py:624-630 | finds the first buffer entry the node accepts, or says that no entry is accepted |
| `Places.FirstOf` | sim_assets/units.py:524-525 | finds the first entry of a kind, and finds none exactly when the count of that kind is 0 |
| `Places.CountRepeat` | sim_assets/units.py:403-405 | n copies of one resource count n for its kind and 0 for the others |
| `Places.WorkedKeeps` | sim_assets/units.py:403-407 | the Factory or Field loop keeps every Food and Product it does not touch |
| `Places.WorkedWorkers` | sim_assets/units.py:403-407 | the Factory or Field loop never adds a Worker to the original entries |
| `Places.WorkedPrefix` | sim_assets/units.py:403-407 | the loop's effect on a prefix of the buffer is a prefix of its effect on the whole buffer, so earlier entries are settled first |
| `Places.FactoryWorkerFate` | sim_assets/units.py:403-407 | a Factory removes a Worker exactly when its accident draw fires or a damage of 0.1 is lethal; the accident skips the damage, and a surviving Worker stays in place with 0.1 less viability |
| `Places.FieldWorkerFate` | sim_assets/units.py:440-444 | a Field removes a Worker exactly when its accident draw fires, and otherwise keeps it unchanged |
| `Places.FactoryOutcomeCounts` | sim_assets/units.py:397-411 | a Factory ends with one more Product per Worker it held, at the end of the buffer; it keeps its Food and has no more Workers than before |
| `Places.FieldOutcomeCounts` | sim_assets/units.py:434-448 | a Field ends with one more Food per Worker it held; it keeps its Products and has no more Workers than before |
| `Places.Fed` | sim_assets/units.py:477-479 | feeding keeps the buffer's length and feeds each entry in place |
| `Places.FedCounts` | sim_assets/units.py:477-479 | feeding every Worker changes no count |
| `Places.WithoutProducts` | sim_assets/units.py:480 | the filtered buffer has no Products, the same number of every other kind, and only entries of the original |
| `Places.FlatOutcomeCounts` | sim_assets/units.py:469-484 | a Flat ends with no Products; with exactly two Workers it has three, and otherwise it has the same Workers, none above viability 1; its Food is kept |
| `Places.DinerOutcomeCounts` | sim_assets/units.py:520-533 | a Diner's step completes exactly when it holds a Worker and a Food; it then removes exactly one Food and keeps every Worker and Product |
| `Places.Used` | sim_assets/units.py:397-411 | a production step never changes the class or the links; `_working` stays set exactly when the step dies on an exception, and a completed step leaves resources waiting |
| `Places.Kept` | sim_assets/units.py:381-385 | what a Node keeps after delivery holds nothing the container uses, and is no longer than before |
| `Places.Handed` | sim_assets/units.py:381-384 | what a Node hands over holds only kinds the container uses |
| `Places.KeptHandedPartition` | sim_assets/units.py:381-384 | the entries kept and the entries handed over make up the Node's whole buffer |
| `Places.InsertAllStores` | sim_assets/units.py:641-671 | a Magazine or Barn stores everything it is handed, in order, after what it held; no container ends with more than it held plus what it was handed |
| `Places.InsertAllLength` | sim_assets/units.py:302-310 | putting resources through `insert` one by one never adds more entries than it is given |
| `Places.InsertAllFilters` | sim_assets/units.py:302-310 | a class other than Road that is handed resources one by one keeps exactly the ones it uses, in order |
| `Places.HandedAll` | sim_assets/units.py:381-384 | nothing is filtered out of a buffer whose every entry the class uses |
| `Places.Reloaded` | sim_assets/units.py:302-310 | the buffer `from_json` rebuilds through `insert` is never longer than the saved one |
| `Places.ReloadedIntact` | sim_assets/units.py:302-310 | outside a Road, the rebuilt buffer is the saved one filtered to the kinds the class uses; for every class, it equals the saved buffer exactly when that buffer is intact: only used kinds, and for a Road at most one live Worker |
| `Places.GiveConserves` | sim_assets/units.py:376-386 | delivery into a Magazine or Barn loses and creates nothing: the two buffers together hold exactly what they held before |
| `Places.Give` | sim_assets/units.py:376-386 | delivery changes no class and no link; without waiting resources it changes nothing; with them, the Node keeps nothing the container uses, and it still waits exactly when something is left |
| `Places.ResourcesJson` | sim_assets/units.py:289 | the saved resources are the records of the buffer entries, one per entry and in order |
| `Places.PlaceJsonOf` | sim_assets/units.py:283-300 | a place's record carries its class name, its index, the given neighbour indices and one resource record per buffer entry |
| `Places.DecodeAll` | sim_assets/units.py:308-309 | the saved resources decode exactly when each one does, and then decode one by one, in order |
| `Places.DecodeAllStep` | sim_assets/units.py:308-309 | decoding one more saved resource extends the decoded list by exactly that resource |
| `Places.DecodeAllJson` | sim_assets/units.py:289-309 | the saved resources of any buffer decode back to that buffer |
| `Places.PlaceFromJsonAsWritten` | sim_assets/units.py:302-310 | as written, reading a place succeeds exactly when the corrected reader does, and gives the same place except that the buffer is rebuilt through `insert` |
| `Places.PlaceFromJson` | sim_assets/units.py:302-310 | reading a place succeeds exactly when its class name and every resource decode; the place has that class, no links, one buffer entry per saved resource, and `_working` cleared |
| `Places.PlaceJsonRoundTrip` | sim_assets/units.py:283-310 | reading back a place's record restores its class, position, buffer and Node flags, with `_working` cleared; the index survives unless it was 0, which takes the next serial number; links are left to the map |
| `Places.PlaceJsonReload` | sim_assets/units.py:283-310 | reading back a place's record as written restores what `PlaceJsonRoundTrip` restores but with the buffer rebuilt through `insert`; the two readers agree exactly when the buffer is intact |
| `Places.ReloadDamagesRoadWorkers` | sim_assets/units.py:302-310 | as written, a Road saved with two Workers at 1.0 comes back with the second at 0.98 |
| `Places.ReloadDropsFactoryOutput` | sim_assets/units.py:302-310 | as written, a Factory saved with an undelivered Product comes back with an empty buffer |
| `Graph.ConnectEdges` | sim_assets/units.py:230-251 | `a.connect_place(b)` adds exactly the link from a to b at both ends, or nothing when a is b; it changes nothing but links, keeps the lists free of repeats, and keeps the graph well formed |
| `Graph.ConnectIdempotent` | sim_assets/units.py:230-251 | connecting the same pair twice is the same as connecting it once |
| `Graph.SeveredEdges` | sim_assets/units.py:253-262 | `a.disconnect_place(b)` removes the links between a and b in both directions and at both ends; every other link and everything else is unchanged, and the graph stays well formed |
| `Graph.IsolateEdges` | sim_assets/units.py:264-269 | `disconnect_all_connections` removes exactly the links that touch the place, so its two lists end empty and nobody lists it; the graph stays well formed |
| `Graph.ServedIff` | sim_assets/units.py:159-172 | the inner loop of `has_required_connections` finds a neighbour exactly when one produces (or uses) the kind |
| `Graph.AllServedIff` | sim_assets/units.py:159-172 | the outer loop succeeds exactly when every kind of the list is served by some neighbour |
| `Graph.HasRequiredConnectionsIff` | sim_assets/units.py:155-173 | a place has its required connections exactly when an ingoing neighbour produces every kind it uses and an outgoing neighbour uses every kind it produces |
| `Graph.FactoryConnections` | sim_assets/units.py:155-173 | a Factory fed by a Road and delivering to that Road and to a Magazine has its connections; an unconnected one has not |
| `Graph.MoveKeepsStock` | sim_assets/units.py:624-630 | moving one resource from a container's buffer to the end of a node's buffer keeps the total stock of the arena |
| `Graph.PlaceResourceSpec` | sim_assets/units.py:624-630 | `place_resource` only moves resources: classes, positions, indices and links are unchanged |
| `Graph.PlaceResourceAvailable` | sim_assets/units.py:624-630 | `place_resource` succeeds exactly when the container holds something the node accepts, and changes nothing when it fails |
| `Graph.PlaceResourceMoves` | sim_assets/units.py:624-630 | a successful `place_resource` appends to the node one resource it accepts, removes that same resource from the container, changes no other place, and keeps the total stock |
| `Graph.PlaceResourceFound` | sim_assets/units.py:624-630 | the resource moved is the first in the container's buffer that the node accepts |
| `Graph.PlaceResourceChoice` | sim_assets/units.py:624-630 | a successful move is the move of some accepted entry of the container to the end of the node's buffer |
| `Graph.Pull` | sim_assets/units.py:415-417 | pulling from ingoing containers only moves resources; no class, position or link changes |
| `Graph.PullMoves` | sim_assets/units.py:415-417 | a pull succeeds exactly when some source container among the neighbours holds something the node accepts; a failed pull changes nothing; a successful one appends one accepted resource to the node, changes only the node and its neighbours, and keeps the total stock |
| `Graph.CanPullCons` | sim_assets/units.py:415-417 | a pull can succeed from a list of neighbours exactly when it can from the first one or from the rest, as the loop tries them in turn |
| `Graph.WorkshopGet` | sim_assets/units.py:413-418 | a Factory's or Field's `get_resources` only moves resources |
| `Graph.FlatGet` | sim_assets/units.py:486-500 | a Flat's `get_resources` only moves resources |
| `Graph.DinerGet` | sim_assets/units.py:535-546 | a Diner's `get_resources` only moves resources |
| `Graph.GetSpec` | sim_assets/units.py:372-373 | every class's `get_resources` only moves resources; classes, positions, indices and links are unchanged |
| `Graph.GatheredTrans` | sim_assets/units.py:494-499 | two rounds of gathering toward a node, such as the Flat's two Road pulls, are together one gathering |
| `Graph.PullGathers` | sim_assets/units.py:415-417 | a pull moves resources only from the node's ingoing neighbours to the end of its buffer, keeping the total stock |
| `Graph.FlatGetGathers` | sim_assets/units.py:486-500 | a Flat's pulls move resources only from its ingoing neighbours to the end of its buffer, keeping the total stock |
| `Graph.DinerGetGathers` | sim_assets/units.py:535-546 | a Diner's pulls move resources only from its ingoing neighbours to the end of its buffer, keeping the total stock |
| `Graph.GetConserves` | sim_assets/units.py:413-546 | for every Node class, `get_resources` keeps the total stock; the node's old buffer stays as a prefix of its new one, and no place other than the node and its ingoing neighbours changes |
| `Graph.PullingMeansNotReady` | sim_assets/units.py:486-546 | a Flat or Diner that had to pull anything reports not ready in that call, because its verdict uses the counts taken before pulling |
| `Graph.FactoryStarves` | sim_assets/units.py:413-418 | an empty Factory whose ingoing containers hold no Worker changes nothing and is not ready |
| `Graph.NodeUpdateSpec` | sim_assets/units.py:365-370 | a Node's update only moves resources and sets flags; it never changes a class or a link |
| `Graph.NoRestartBeforeDelivery` | sim_assets/units.py:365-370 | a Node that started production is working or waiting afterwards, so no later update starts it again before it delivers |
| `Graph.GiveStep` | sim_assets/units.py:376-386 | `give_resources` only moves resources and sets the Node's flags; it never changes a class or a link |
| `Graph.GiveAll` | sim_assets/units.py:632-635 | `Container.update` only moves resources and sets flags; it never changes a class or a link |
| `Graph.GiveBuffers` | sim_assets/units.py:376-386 | after delivery the two buffers hold exactly what they held before when the container is not a Road, and never more in any case |
| `Graph.GiveStepIdle` | sim_assets/units.py:380 | a neighbour that is not a Node, or a Node with nothing waiting, gives nothing |
| `Graph.GiveStepKeeps` | sim_assets/units.py:376-386 | a Node's delivery into a Magazine or Barn keeps the total stock |
| `Graph.GiveStepShrinks` | sim_assets/units.py:376-386 | a delivery never increases the number of resources in the world; a Worker can die entering a Road |
| `Graph.GiveStepStock` | sim_assets/units.py:376-386 | a single delivery keeps the total stock unless the container is a Road, and never increases its size |
| `Graph.GiveAllStock` | sim_assets/units.py:632-635 | a whole `Container.update` keeps the total stock unless the container is a Road, and never increases its size |
| `Units.Work` | sim_assets/units.py:403-407 | the Factory or Field loop over a snapshot of the buffer leaves the surviving original entries in order, followed by one output per Worker |
| `Units.Feed` | sim_assets/units.py:477-479 | the Flat's feeding loop gives each Worker 0.25 viability, capped at 1, and leaves every other entry |
| `Units.Dine` | sim_assets/units.py:524-529 | the Diner's step is the one its specification gives: none without a Worker or a Food, else the first Food removed and the first Worker fed |
| `Units.Deliver` | sim_assets/units.py:381-384 | the delivery loop over a snapshot leaves the Node with the entries the container does not use, in order, and the container with each used entry inserted in turn |
| `Units.Produce` | sim_assets/units.py:397-533 | each class's production step on a buffer gives the outcome its specification names, including the exception cases |
| `Units.World.constructor` | sim_assets/units.py:100-101 | a new world has no places and the serial counter at 0 |
| `Units.World.AddPlace` | sim_assets/units.py:102-118 | building a place appends a new place with the next serial number, centred on the point, and advances the counter by one |
| `Units.World.SetIndex` | sim_assets/units.py:138-139 | `set_index` changes that place's index and nothing else |
| `Units.World.LoadPlace` | sim_assets/units.py:302-310 | the loop that creates the place and puts each decoded resource through `insert` appends exactly the place `PlaceFromJsonAsWritten` gives, and succeeds exactly when the record decodes; an unknown class changes nothing and uses no serial number; a resource that fails to decode leaves the half-filled place behind, and a saved index of 0 then still uses a serial number |
| `Units.RefillStops` | sim_assets/units.py:307-309 | a saved resource that does not decode leaves the created place, unlinked and of the record's class, abandoned at the end of the arena, and the record does not load |
| `Units.World.ConnectOutgoing` | sim_assets/units.py:246-251 | b joins a's outgoing list unless it is already there; nothing else changes |
| `Units.World.ConnectIngoing` | sim_assets/units.py:239-244 | b joins a's ingoing list unless it is already there; nothing else changes |
| `Units.World.ConnectPlace` | sim_assets/units.py:230-237 | the arena after `connect_place` is the one `Graph.ConnectEdges` describes, and it stays well formed |
| `Units.World.DisconnectPlace` | sim_assets/units.py:253-262 | the recursive `disconnect_place` leaves the arena `Graph.SeveredEdges` describes |
| `Units.World.DisconnectAllConnections` | sim_assets/units.py:264-269 | the loop over a snapshot of both lists leaves the place isolated as `Graph.IsolateEdges` describes, and the graph stays well formed |
| `Units.World.Insert` | sim_assets/units.py:420-671 | inserting into a place gives the verdict and the buffer `Places.Insert` describes; a rejection changes nothing |
| `Units.World.PlaceResource` | sim_assets/units.py:624-630 | the loop moves what `place_resource` specifies and returns its verdict |
| `Units.World.PullFrom` | sim_assets/units.py:415-417 | the loop over ingoing neighbours stops at the first source container that gives something, as the pull specification says |
| `Units.World.GetResources` | sim_assets/units.py:413-546 | each class's `get_resources` leaves the arena and gives the verdict the specification states |
| `Units.World.UseResources` | sim_assets/units.py:397-533 | running the production step to completion replaces the node by the node the specification gives, and the graph stays well formed |
| `Units.World.NodeUpdate` | sim_assets/units.py:365-370 | a Node's update gets resources only when idle, with nothing waiting and its cool-down over, and works only when they suffice |
| `Units.World.GiveResources` | sim_assets/units.py:376-386 | the delivery from node to container leaves the arena one `Graph.GiveStep` gives |
| `Units.World.ContainerUpdate` | sim_assets/units.py:632-635 | every ingoing Node gives to the container, in list order |
| `Units.World.Update` | sim_assets/units.py:365-386 | a place's update is the Node update for a Node and the container update otherwise |
| `MapSaves.RenumberSpec` | sim_assets/map.py:178-179 | numbering gives the place listed i-th the index i, changes nothing else about it, and leaves places not on the list alone |
| `MapSaves.RenumberAt` | sim_assets/map.py:178-179 | the place listed i-th gets index i |
| `MapSaves.IndicesOf` | sim_assets/units.py:287-288 | a place's saved neighbour list holds the indices of its neighbours, in order |
| `MapSaves.SavedAt` | sim_assets/map.py:180-184 | record i is the record of the place listed i-th |
| `MapSaves.SavedNumbering` | sim_assets/map.py:174-185 | after numbering, record t carries index t, and its `out` list holds the list positions of the outgoing neighbours of the t-th listed place, in order |
| `MapSaves.IndexMap` | sim_assets/map.py:189-193 | the first pass maps exactly the saved indices it has seen, each to one of the places it created |
| `MapSaves.IndexMapIdentity` | sim_assets/map.py:189-193 | with record i saved under index i, index i maps to the i-th place created |
| `MapSaves.EntryLinks` | sim_assets/map.py:195-198 | the pairs connected for one record are its own place to the place of each of its `out` entries, in order |
| `MapSaves.LinkIn` | sim_assets/map.py:194-198 | the second pass connects the place of each record to the place of each of its `out` entries |
| `MapSaves.LinkSource` | sim_assets/map.py:194-198 | every pair the second pass connects comes from some `out` entry of some record |
| `MapSaves.LinksMembers` | sim_assets/map.py:194-198 | a pair is connected by the second pass exactly when some record's own place lists the other in its `out` |
| `MapSaves.ConnectAt` | sim_assets/units.py:230-251 | after connecting a to b, y is a neighbour of x exactly when it was before or (x, y) is the new link |
| `MapSaves.WireWf` | sim_assets/map.py:194-198 | wiring a list of pairs keeps the graph well formed and changes nothing but links |
| `MapSaves.WireKeeps` | sim_assets/map.py:194-198 | wiring changes nothing about a place but its links |
| `MapSaves.WireAt` | sim_assets/map.py:194-198 | after wiring, y is a neighbour of x exactly when it was before or one of the pairs links two distinct places that way |
| `MapSaves.WireEdges` | sim_assets/map.py:194-198 | wiring a list of pairs adds exactly the links of the pairs between two distinct places, changes nothing else, and keeps the graph well formed |
| `MapSaves.FreshPlace` | sim_assets/units.py:302-310 | the place the first pass creates from a record that decodes is the one `Place.from_json` returns as written: no links, the record's class, and the decoded resources rebuilt through `insert` |
| `MapSaves.FreshAt` | sim_assets/map.py:189-193 | the i-th place the first pass creates is the place of record i |
| `MapSaves.Created` | sim_assets/map.py:188-193 | the first pass appends one place per record to the arena, each as `Place.from_json` builds it, none of them linked |
| `MapSaves.LoadedWf` | sim_assets/map.py:187-198 | a successful load leaves a well-formed graph whose new places carry the records' classes and the records' resources rebuilt through `insert` |
| `MapSaves.SaveLoadRoundTrip` | sim_assets/map.py:174-198 | saving the listed places and loading the records back always succeeds; the new places, in list order, have the classes of the originals and link to each other exactly as the originals did; each holds its original's buffer rebuilt through `insert`, which is the original buffer exactly when that buffer is intact |
| `MapSaves.SavedLoadable` | sim_assets/map.py:174-198 | the records a map saves all decode and name only saved indices in their `out` lists, so loading them raises no `KeyError` |
| `MapSaves.RecordRestores` | sim_assets/units.py:283-310 | a place read back from a place's record has that place's class and its buffer rebuilt through `insert` |
| `MapSaves.WiredKeeps` | sim_assets/map.py:194-198 | the second pass changes no place's class or buffer |
| `MapSaves.CreatedRecords` | sim_assets/map.py:188-193 | each place of the first pass carries the class its record names and the record's buffer rebuilt through `insert` |
| `MapSaves.RestoredAt` | sim_assets/map.py:187-198 | a loaded place built from the record of a saved place has that place's class and its buffer rebuilt through `insert` |
| `MapSaves.SavedRecordsHold` | sim_assets/map.py:174-185 | each record `json` returns is the record of the place listed at that position, whose class and buffer are those of the map's place |
| `MapSaves.WiredContents` | sim_assets/map.py:194-198 | wiring keeps, for each listed place, the class and the rebuilt buffer its copy was created with |
| `MapSaves.LoadedContents` | sim_assets/map.py:187-198 | loading the saved records restores the class of every listed place and gives it its buffer rebuilt through `insert` |
| `MapSaves.NumberedResolves` | sim_assets/map.py:194-198 | numbered records name only indices the first pass has mapped |
| `MapSaves.NumberedPairs` | sim_assets/map.py:194-198 | the second pass connects the copies of the i-th and j-th listed places exactly when i and j differ and the originals were linked |
| `MapSaves.SavedWiring` | sim_assets/map.py:194-198 | in the wired arena a loaded place links to another exactly when the second pass connected them |
| `MapSaves.NumberedLinks` | sim_assets/map.py:194-198 | wiring numbered records links the copies of the i-th and j-th listed places exactly when the originals were linked |
| `MapSaves.WiredLinks` | sim_assets/map.py:194-198 | wiring the saved records links all the copies exactly as the originals were linked |
| `MapSaves.LoadedLinks` | sim_assets/map.py:187-198 | loading the saved records links the loaded places exactly as the listed places they were saved from |
| `SimMap.PlaceAt` | sim_assets/map.py:69-77 | the place found is listed and holds the point; nothing is found exactly when no listed place holds the point |
| `SimMap.PlaceAtLastHit` | sim_assets/map.py:69-77 | in a list without repeats, the place found is the i-th listed exactly when it holds the point and no later one does, so the last match wins |
| `SimMap.OutClosedGrow` | sim_assets/map.py:107-111 | a new place without links can join the end of the list and keeps it closed and free of repeats |
| `SimMap.OutClosedAbandoned` | sim_assets/map.py:189-192 | a half-filled place that a failed load leaves at the end of the arena, off the list, keeps the list closed |
| `SimMap.OutClosedSevered` | sim_assets/map.py:79-86 | disconnecting two places keeps the graph well formed and the list closed |
| `SimMap.OutClosedConnect` | sim_assets/map.py:117-120 | connecting any place to a listed place keeps the list closed |
| `SimMap.OutClosedDelete` | sim_assets/map.py:88-95 | isolating a place and dropping it from the list keeps the list closed and free of repeats |
| `SimMap.DeletedUnlinked` | sim_assets/map.py:88-95 | after a deletion the place is off the list, and no place of the arena lists it in either direction |
| `SimMap.WireAllAppend` | sim_assets/map.py:194-198 | connecting one list of pairs and then another is connecting the two lists in turn |
| `SimMap.WireEntriesAll` | sim_assets/map.py:194-198 | connecting record by record is connecting every pair of the second pass in turn |
| `SimMap.ResolvesLoadable` | sim_assets/map.py:187-198 | with the index map of the first pass, every lookup of the second pass succeeds exactly when every `out` entry is a saved index |
| `SimMap.Map.constructor` | sim_assets/map.py:12-16 | a new map lists no places and has nothing selected |
| `SimMap.Map.SelectBuildType` | sim_assets/map.py:37-43 | the build type is set and the other two selections cleared; the list is unchanged |
| `SimMap.Map.SelectResourceType` | sim_assets/map.py:45-51 | the resource type is set and the other two selections cleared; the list is unchanged |
| `SimMap.Map.SelectBuildingAt` | sim_assets/map.py:53-59 | a hit makes the place at the point the selection; a miss changes nothing; the other two selections are left as they were |
| `SimMap.Map.DeselectSelections` | sim_assets/map.py:61-67 | all three selections are cleared and the list is unchanged |
| `SimMap.Map.GetPlaceAt` | sim_assets/map.py:69-77 | the loop returns the last listed place holding the point, or none |
| `SimMap.Map.DisconnectFromSelection` | sim_assets/map.py:79-86 | with a selection and a hit, the two places are disconnected; otherwise nothing changes |
| `SimMap.Map.DeletePlaceAt` | sim_assets/map.py:88-95 | on a hit the place loses all its links and leaves the list, and everything else stays; on a miss nothing changes |
| `SimMap.Map.CanBuild` | sim_assets/map.py:97-101 | true exactly when one of the three selections is set |
| `SimMap.Map.Build` | sim_assets/map.py:103-120 | by priority: with a build type, one new place of that class centred on the point joins the list; else with a resource type, a new resource is offered to the place at the point; else the selected place connects to the place at the point, which never adds a self-link |
| `SimMap.Map.ConnectListed` | sim_assets/map.py:117-120 | connecting to a listed place keeps the map's invariant |
| `SimMap.Map.Json` | sim_assets/map.py:174-185 | saving first numbers the listed places 0, 1, ... in list order, so record t carries index t, and returns the records of the numbered places |
| `SimMap.Map.NumberPlaces` | sim_assets/map.py:178-179 | the numbering loop leaves the arena `MapSaves.RenumberSpec` describes |
| `SimMap.Map.Records` | sim_assets/map.py:180-184 | the record loop returns the records of the listed places, in order |
| `SimMap.Map.ConnectOuts` | sim_assets/map.py:196-198 | the inner loop of the second pass succeeds exactly when every `out` entry of the record is a saved index, and then connects the record's pairs in order |
| `SimMap.Map.CreatePlace` | sim_assets/map.py:189-192 | one step of the first pass succeeds exactly when the record decodes, and takes the first-pass state one record further with the place `Place.from_json` builds as written; on a `KeyError` the list stays closed though a half-filled place may be left in the arena |
| `SimMap.Map.CreatePlaces` | sim_assets/map.py:188-192 | the first pass succeeds exactly when every record decodes, and then has created, as `Place.from_json` builds them, and listed one place per record and mapped each saved index |
| `SimMap.Map.ConnectEntry` | sim_assets/map.py:194-198 | one record of the second pass succeeds exactly when the records so far all resolve, and a failure means the whole load fails |
| `SimMap.Map.ConnectAll` | sim_assets/map.py:194-198 | the second pass succeeds exactly when every record resolves, and then connects every pair in turn |
| `SimMap.Map.LoadJson` | sim_assets/map.py:187-198 | loading succeeds exactly when it raises no `KeyError`; the arena then gains the loaded places, built as `Place.from_json` builds them and wired by their `out` lists, the list names exactly them in record order, and the counter advances once per record saved with index 0 |

## Left out

- **Threads and the lock.** `threading.Thread` in `Node.update`, the `time.sleep` calls in `use_resources`, the Container lock, and `Map._wait_threads` (sim_assets/map.py:29-35) are not modelled. A production step runs to completion inside the update. `place_resource` is atomic.
- **Random distributions.** Only the outcome of each draw is a parameter: `random_accident`, the Flat's 0.4 draw and the Diner's poison-and-uniform viability. The distributions are not modelled.
- **Rendering.** `Map.__init__`'s preview surfaces, `selected_build_preview`, `Map.blit`, `_draw_bezier`, every `blit`, `connection_points` and the colours and dimensions of resources are pygame drawing and are not modelled. The footprint side lengths are kept, because `point_in_place` needs them.
- **The `places` property** (sim_assets/map.py:25-27) only returns the list. It is the `order` field.
- **Floats.** Viability, positions and times are exact reals. Float rounding, for example in 1.0 − 0.02, is not modelled.
- **JSON key munging.** The records keep class name, index, `in` and `out` indices, resources, position, the `_working` flag, and the Node's waiting flag and cool-down. Reading a record ignores the saved `_working` and starts the place with it False. The `replace('_', '')` renaming and the other merged `__dict__` entries (colours, dimensions, radius) are not modelled. A missing key other than the ones named above is not modelled.
- **`_count_resources`.** It is modelled one kind at a time, as `Resources.Count`. The list-of-types form returns the same counts in order.
- **`Place.point_in_place` on the base class** always returns False. No built place is a bare `Place`, so only the Node and Container versions are modelled.
- SimMap.Map.LoadJson: when `ok` is false, the model does not state the partly built state. The source also leaves a partial list and partly wired places behind after its `KeyError`.
- Units.World.DisconnectPlace: neither requires nor ensures that the whole graph is well formed. It requires only duplicate-free lists without self-links at the two places. That is what the recursive calls see, because a half-disconnected graph is not well formed.
- ResourceObjects.Worker.RestoreViability: the default argument `viability=1` of `restore_viability` is not a separate method. The call without an argument is `RestoreViability(Resources.FullViability)`, which sets the viability to `Restored(FullViability)`, that is 1.
- MapSaves.SaveLoadRoundTrip: states which links exist after a load, not the order of the connection lists. The second pass of `load_json` appends each ingoing neighbour in record order, not in the order the places were first connected, so an ingoing list can come back reordered and a Node's pulls, which try ingoing neighbours in list order, can then differ after a save and load.
- Places.PlaceJsonRoundTrip: assumes a Container's Node fields are at their defaults. Containers have no waiting flag or cool-down, and the record of a Container does not carry them.

## Findings

| source | as written | input that shows it | evidently intended | confidence | as-written member | corrected member |
|---|---|---|---|---|---|---|
| sim_assets/units.py:302-310 | `Place.from_json` rebuilds the buffer by calling the class's `insert` on each saved resource. A Road damages each Worker again on entry, and a Factory or Field refuses the Products or Food it was waiting to deliver. | A Road saved holding two Workers at viability 1.0 is loaded with the second Worker at 0.98 (`Places.ReloadDamagesRoadWorkers`). A Factory saved with one undelivered Product and waiting to deliver is loaded with an empty buffer, though still waiting (`Places.ReloadDropsFactoryOutput`). | Loading restores the saved buffer as it was saved, so `json` followed by `from_json` gives the same place back. | not executed | `Places.PlaceFromJsonAsWritten` (what `Units.World.LoadPlace` and `SimMap.Map.LoadJson` do, as the program does) | `Places.PlaceFromJson` (round trip proved in `Places.PlaceJsonRoundTrip`; `Places.PlaceJsonReload` proves the program's reader agrees with it exactly on intact buffers) |
