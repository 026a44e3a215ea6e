/** Switching a component's path and the abilities of its ports together.

    The manager fills the spare ability area of each port and direction of a component, moves
    that area's update index and queues the port; then it fills and publishes the component's
    path and waits.  The queue is one for all workers: any worker that finds its own path
    published moves the reference index of every queued port, empties the queue and only then
    moves that of its path.  To move a burst a worker fetches the area a port's reference index
    names and goes on using it, whatever becomes of the index.  A key below stands for one port
    and direction, a number for a component. */
module AbilitySwitch {
  import opened SppTypes
  import Handover
  import Management

  datatype Item<+A> = Item(key: nat, value: A)

  /** New abilities and path of component `who`; `first` if its indices are still equal.  The
      new path makes the worker use the abilities of the keys `uses`. */
  datatype Job<+P, +A> = Job(who: nat, first: bool, items: seq<Item<A>>, path: P, uses: set<nat>)

  /** `Fill(job, done)`: the abilities of the first `done` items are queued, the next one, or
      the path if there is none, is being written. */
  datatype Phase<+P, +A> = Ready | Fill(job: Job<P, A>, done: nat) | Wait(job: Job<P, A>)

  /** Where the worker of a component is: the component not on its list, before its test of the
      indices, moving the queued references, or in an iteration. */
  datatype Turn = Absent | Top | Flipping(i: nat) | Using

  /** The ability area the worker has fetched for the burst it is moving. */
  datatype Hold = Free | Held(key: nat, area: nat)

  /** Paths by component and abilities by key. */
  datatype Config<+P, +A> = Config(paths: seq<P>, abilities: seq<A>)

  /** What a change of lists or of types makes of a component. */
  datatype Slot<+P> = Slot(turn: Turn, lcore: nat, path: Handover.Cell<P>, uses: set<nat>)

  /** `uses` are the keys the path in force makes a component's worker use.  `seen` is
      history: what the completed switches put in force. */
  datatype World<+P, +A> = World(
    paths: seq<Handover.Cell<P>>, uses: seq<set<nat>>, lcores: seq<nat>, turns: seq<Turn>, holds: seq<Hold>,
    cells: seq<Handover.Cell<A>>, queue: seq<nat>, phase: Phase<P, A>, seen: Config<P, A>)

  datatype Move<+P, +A> =
    | Begin(job: Job<P, A>) | Scribble(junk: A) | ScribblePath(dust: P) | Queue | Publish | Return
    | Relist(slots: map<nat, Slot<P>>)
    | Test(v: nat) | FlipNext(v: nat) | FlipPath(v: nat) | Fetch(v: nat, key: nat) | Release(v: nat) | Finish(v: nat)

  ghost predicate Formed<P, A>(w: World<P, A>) {
    && |w.turns| == |w.lcores| == |w.uses| == |w.holds| == |w.seen.paths| == |w.paths|
    && |w.seen.abilities| == |w.cells|
    && (forall v :: 0 <= v < |w.paths| ==> w.paths[v].Valid())
    && (forall k :: 0 <= k < |w.cells| ==> w.cells[k].Valid())
    && (forall x :: 0 <= x < |w.queue| ==> w.queue[x] < |w.cells|)
    && (!w.phase.Ready? ==> Meant(w, w.phase.job))
    && (w.phase.Fill? ==> w.phase.done <= |w.phase.job.items|)
  }

  ghost predicate InDomain<A>(items: seq<Item<A>>, n: nat) {
    forall j :: 0 <= j < |items| ==> items[j].key < n
  }

  /** The job is of a component, and its path reads only keys it switches. */
  ghost predicate Meant<P, A>(w: World<P, A>, job: Job<P, A>) {
    job.who < |w.paths| && InDomain(job.items, |w.cells|) && forall k :: k in job.uses ==> k in Keys(job.items)
  }

  /** The worker is between its test and the end of its iteration. */
  predicate Inside(t: Turn) { t.Flipping? || t.Using? }

  /** No other component of the worker's lcore is being run. */
  ghost predicate Alone<P, A>(w: World<P, A>, v: nat)
    requires Formed(w) && v < |w.paths|
  {
    forall u :: 0 <= u < |w.paths| && u != v && w.lcores[u] == w.lcores[v] ==> !Inside(w.turns[u])
  }

  /** Every component on a worker's list has its indices apart. */
  ghost predicate Settled<P, A>(w: World<P, A>)
    requires |w.turns| == |w.paths|
  {
    forall v :: 0 <= v < |w.paths| && !w.turns[v].Absent? ==> !w.paths[v].Pending()
  }

  /** A component may still have equal indices, as a new classifier has, until its worker has
      taken it up.  Its first flush is then under way, and it has no ports yet.  Lists and
      types change before any component is dealt with, and for components not being run. */
  ghost predicate Enabled<P, A>(w: World<P, A>, m: Move<P, A>)
    requires Formed(w)
  {
    match m
    case Begin(job) =>
      && w.phase.Ready? && Meant(w, job)
      && (job.first <==> w.paths[job.who].Pending()) && (job.first ==> job.items == [])
      && (job.items != [] ==> Settled(w))
    case Scribble(_) => w.phase.Fill? && w.phase.done < |w.phase.job.items|
    case ScribblePath(_) => w.phase.Fill? && w.phase.done == |w.phase.job.items|
    case Queue => w.phase.Fill? && w.phase.done < |w.phase.job.items|
    case Publish => w.phase.Fill? && w.phase.done == |w.phase.job.items|
    case Return => w.phase.Wait? && !w.paths[w.phase.job.who].Pending()
    case Relist(slots) =>
      && w.phase.Ready?
      && forall v :: v in slots ==>
           v < |w.paths| && !Inside(w.turns[v]) && slots[v].path.Valid() && (slots[v].turn.Absent? || slots[v].turn.Top?)
    case Test(v) => v < |w.paths| && w.turns[v].Top? && Alone(w, v)
    case FlipNext(v) => v < |w.paths| && w.turns[v].Flipping? && w.turns[v].i < |w.queue| && w.holds[v].Free?
    case FlipPath(v) => v < |w.paths| && w.turns[v].Flipping? && w.turns[v].i == |w.queue| && w.holds[v].Free?
    case Fetch(v, k) =>
      && v < |w.paths| && w.holds[v].Free? && k in w.uses[v] && k < |w.cells|
      && (w.turns[v].Using? || w.turns[v] == Flipping(|w.queue|))
    case Release(v) => v < |w.paths| && w.holds[v].Held?
    case Finish(v) => v < |w.paths| && w.turns[v].Using? && w.holds[v].Free?
  }

  function Install<A>(abilities: seq<A>, items: seq<Item<A>>): (r: seq<A>)
    requires forall j :: 0 <= j < |items| ==> items[j].key < |abilities|
    ensures |r| == |abilities|
  {
    if items == [] then abilities
    else
      var n := |items| - 1;
      Install(abilities, items[..n])[items[n].key := items[n].value]
  }

  /** The components of `slots` as they say. */
  ghost function Relisted<P, A>(w: World<P, A>, slots: map<nat, Slot<P>>): (r: World<P, A>)
    requires Formed(w) && forall v :: v in slots ==> v < |w.paths| && slots[v].path.Valid()
    ensures Formed(r) && |r.paths| == |w.paths|
    ensures r.holds == w.holds && r.cells == w.cells && r.queue == w.queue && r.phase == w.phase
    ensures r.seen.abilities == w.seen.abilities
  {
    w.(paths := seq(|w.paths|, v requires 0 <= v < |w.paths| => if v in slots then slots[v].path else w.paths[v]),
       uses := seq(|w.paths|, v requires 0 <= v < |w.paths| => if v in slots then slots[v].uses else w.uses[v]),
       lcores := seq(|w.paths|, v requires 0 <= v < |w.paths| => if v in slots then slots[v].lcore else w.lcores[v]),
       turns := seq(|w.paths|, v requires 0 <= v < |w.paths| => if v in slots then slots[v].turn else w.turns[v]),
       seen := w.seen.(paths := seq(|w.paths|, v requires 0 <= v < |w.paths| =>
                                      if v in slots then slots[v].path.Active() else w.seen.paths[v])))
  }

  /** A worker's flip of the path of its component `v`. */
  ghost function PathFlipped<P, A>(w: World<P, A>, v: nat): (r: World<P, A>)
    requires Formed(w) && v < |w.paths|
    ensures Formed(r)
  {
    var c := w.paths[v].Flip();
    var own := w.phase.Wait? && w.phase.job.who == v;
    w.(paths := w.paths[v := c], queue := [], turns := w.turns[v := Using],
       uses := if own then w.uses[v := w.phase.job.uses] else w.uses,
       seen := Config(w.seen.paths[v := c.Active()],
                      if own then Install(w.seen.abilities, w.phase.job.items) else w.seen.abilities))
  }

  ghost function Next<P, A>(w: World<P, A>, m: Move<P, A>): (r: World<P, A>)
    requires Formed(w) && Enabled(w, m)
    ensures Formed(r)
  {
    match m
    case Begin(job) => w.(phase := Fill(job, 0))
    case Scribble(junk) =>
      var k := w.phase.job.items[w.phase.done].key;
      w.(cells := w.cells[k := w.cells[k].Write(junk)])
    case ScribblePath(dust) =>
      var who := w.phase.job.who;
      w.(paths := w.paths[who := w.paths[who].Write(dust)])
    case Queue =>
      var item := w.phase.job.items[w.phase.done];
      w.(cells := w.cells[item.key := w.cells[item.key].Write(item.value).Publish()],
         queue := w.queue + [item.key], phase := Fill(w.phase.job, w.phase.done + 1))
    case Publish =>
      var who := w.phase.job.who;
      w.(paths := w.paths[who := w.paths[who].Write(w.phase.job.path).Publish()], phase := Wait(w.phase.job))
    case Return => w.(phase := Ready)
    case Relist(slots) => Relisted(w, slots)
    case Test(v) => w.(turns := w.turns[v := if w.paths[v].Pending() then Flipping(0) else Using])
    case FlipNext(v) =>
      var i := w.turns[v].i;
      var k := w.queue[i];
      w.(cells := w.cells[k := w.cells[k].Flip()], turns := w.turns[v := Flipping(i + 1)])
    case FlipPath(v) => PathFlipped(w, v)
    case Fetch(v, k) => w.(holds := w.holds[v := Held(k, w.cells[k].ref)])
    case Release(v) => w.(holds := w.holds[v := Free])
    case Finish(v) => w.(turns := w.turns[v := Top])
  }

  // ----- Indices -----

  function Keys<A>(items: seq<Item<A>>): (r: seq<nat>)
    ensures |r| == |items|
  {
    seq(|items|, j requires 0 <= j < |items| => items[j].key)
  }

  /** How many queued keys the awaited worker has flipped. */
  function Flipped<P, A>(w: World<P, A>): nat {
    if w.phase.Wait? && w.phase.job.who < |w.turns| && w.turns[w.phase.job.who].Flipping?
    then w.turns[w.phase.job.who].i else 0
  }

  /** The queue is what the manager has queued since the last switch, and while it holds
      anything no worker but the awaited one has a reason to flip it. */
  ghost predicate QueueOk<P, A>(w: World<P, A>)
    requires Formed(w)
  {
    && (w.phase.Ready? ==> w.queue == [])
    && (w.phase.Fill? ==> FillOk(w, w.phase.job) && w.queue == Keys(w.phase.job.items)[..w.phase.done])
    && (w.phase.Wait? ==> WaitOk(w, w.phase.job))
    && (forall v :: 0 <= v < |w.turns| && w.turns[v].Flipping? ==> FlippingOk(w, v))
  }

  ghost predicate FillOk<P, A>(w: World<P, A>, job: Job<P, A>)
    requires Formed(w) && Meant(w, job)
  {
    && (job.first ==> job.items == [])
    && (!job.first ==> !w.paths[job.who].Pending())
    && (job.items != [] ==> Settled(w))
  }

  ghost predicate WaitOk<P, A>(w: World<P, A>, job: Job<P, A>)
    requires Formed(w) && Meant(w, job)
  {
    && (job.first ==> job.items == [])
    && w.queue == (if w.paths[job.who].Pending() then Keys(job.items) else [])
    && (job.items != [] ==>
          forall v :: 0 <= v < |w.paths| && v != job.who && !w.turns[v].Absent? ==> !w.paths[v].Pending())
  }

  ghost predicate FlippingOk<P, A>(w: World<P, A>, v: nat)
    requires Formed(w) && v < |w.turns|
  {
    w.turns[v].Flipping? && w.paths[v].Pending() && w.turns[v].i <= |w.queue|
  }

  /** A key's two indices agree exactly while it is queued and not flipped. */
  ghost predicate KeyOk<P, A>(w: World<P, A>, k: nat)
    requires Formed(w) && QueueOk(w) && k < |w.cells|
  {
    Flipped(w) <= |w.queue| && (w.cells[k].Pending() <==> k in w.queue && k !in w.queue[..Flipped(w)])
  }

  ghost predicate IndexInv<P, A>(w: World<P, A>) {
    Formed(w) && QueueOk(w) && forall k: nat :: k < |w.cells| ==> KeyOk(w, k)
  }

  /** While the queue holds anything, only the awaited worker flips. */
  lemma OnlyAwaitedFlips<P, A>(w: World<P, A>, v: nat)
    requires Formed(w) && QueueOk(w) && v < |w.turns| && w.turns[v].Flipping? && w.queue != []
    ensures w.phase.Wait? && w.phase.job.who == v && w.phase.job.items != []
  {
    assert FlippingOk(w, v);
  }

  predicate OfWorker<P, A>(m: Move<P, A>) {
    m.Test? || m.FlipNext? || m.FlipPath? || m.Fetch? || m.Release? || m.Finish?
  }

  lemma ManagerQueueStep<P, A>(w: World<P, A>, m: Move<P, A>)
    requires Formed(w) && QueueOk(w) && Enabled(w, m)
    requires !OfWorker(m)
    ensures QueueOk(Next(w, m))
  {
    var r := Next(w, m);
    forall v: nat | v < |r.turns| && r.turns[v].Flipping? ensures FlippingOk(r, v) {
      assert FlippingOk(w, v);
    }
    if m.Queue? {
      var keys, d := Keys(w.phase.job.items), w.phase.done;
      assert keys[..d + 1] == keys[..d] + [keys[d]];
    } else if m.Publish? {
      var keys := Keys(w.phase.job.items);
      assert keys[..|keys|] == keys;
    }
  }

  lemma WorkerQueueStep<P, A>(w: World<P, A>, m: Move<P, A>)
    requires Formed(w) && QueueOk(w) && Enabled(w, m) && OfWorker(m)
    ensures QueueOk(Next(w, m))
  {
    var r := Next(w, m);
    if w.turns[m.v].Flipping? {
      assert FlippingOk(w, m.v);
      if w.queue != [] {
        OnlyAwaitedFlips(w, m.v);
      }
    }
    forall v: nat | v < |r.turns| && r.turns[v].Flipping? ensures FlippingOk(r, v) {
      if v != m.v {
        assert FlippingOk(w, v);
        if w.queue != [] {
          OnlyAwaitedFlips(w, v);
        }
      }
    }
  }

  lemma QueueStep<P, A>(w: World<P, A>, m: Move<P, A>)
    requires Formed(w) && QueueOk(w) && Enabled(w, m)
    ensures QueueOk(Next(w, m))
  {
    if OfWorker(m) {
      WorkerQueueStep(w, m);
    } else {
      ManagerQueueStep(w, m);
    }
  }

  lemma FlipKey<P, A>(w: World<P, A>, v: nat, k: nat)
    requires IndexInv(w) && Enabled(w, FlipNext(v)) && k < |w.cells|
    ensures QueueOk(Next(w, FlipNext(v))) && KeyOk(Next(w, FlipNext(v)), k)
  {
    QueueStep(w, FlipNext(v));
    OnlyAwaitedFlips(w, v);
    var i := w.turns[v].i;
    assert w.queue[..i + 1] == w.queue[..i] + [w.queue[i]];
    assert KeyOk(w, k);
  }

  lemma FlipPathKey<P, A>(w: World<P, A>, v: nat, k: nat)
    requires IndexInv(w) && Enabled(w, FlipPath(v)) && k < |w.cells|
    ensures QueueOk(Next(w, FlipPath(v))) && KeyOk(Next(w, FlipPath(v)), k)
  {
    QueueStep(w, FlipPath(v));
    assert KeyOk(w, k);
    if w.queue != [] {
      OnlyAwaitedFlips(w, v);
      assert w.queue[..|w.queue|] == w.queue;
    }
  }

  lemma KeyStep<P, A>(w: World<P, A>, m: Move<P, A>, k: nat)
    requires IndexInv(w) && Enabled(w, m) && k < |w.cells|
    ensures QueueOk(Next(w, m)) && KeyOk(Next(w, m), k)
  {
    QueueStep(w, m);
    assert KeyOk(w, k);
    if m.FlipNext? {
      FlipKey(w, m.v, k);
    } else if m.FlipPath? {
      FlipPathKey(w, m.v, k);
    } else if m.Publish? {
      assert !(w.turns[w.phase.job.who].Flipping? && w.queue != []) by {
        if w.turns[w.phase.job.who].Flipping? {
          assert FlippingOk(w, w.phase.job.who);
        }
      }
    }
  }

  lemma IndexStep<P, A>(w: World<P, A>, m: Move<P, A>)
    requires IndexInv(w) && Enabled(w, m)
    ensures IndexInv(Next(w, m))
  {
    QueueStep(w, m);
    forall k: nat | k < |w.cells| ensures KeyOk(Next(w, m), k) {
      KeyStep(w, m, k);
    }
  }

  /** The area the manager is about to fill is the one workers read exactly when the key was
      already queued in this switch. */
  lemma FillCollidesIff<P, A>(w: World<P, A>)
    requires IndexInv(w) && w.phase.Fill? && w.phase.done < |w.phase.job.items|
    ensures var items, d := w.phase.job.items, w.phase.done;
            w.cells[items[d].key].upd == w.cells[items[d].key].ref <==> items[d].key in Keys(items)[..d]
  {
    assert KeyOk(w, w.phase.job.items[w.phase.done].key);
  }

  // ----- Contents -----

  ghost predicate Once<A>(items: seq<Item<A>>) { NoDups(Keys(items)) }

  /** What a worker reads of key `k`. */
  ghost predicate ReadOk<P, A>(w: World<P, A>, k: nat)
    requires Formed(w) && QueueOk(w) && k < |w.cells|
  {
    Flipped(w) <= |w.queue| && (k !in w.queue[..Flipped(w)] ==> w.cells[k].Active() == w.seen.abilities[k])
  }

  /** What the worker of component `v` reads of its path, unless it is new. */
  ghost predicate PathOk<P, A>(w: World<P, A>, v: nat)
    requires Formed(w) && v < |w.paths|
  {
    !w.paths[v].Pending() || (w.phase.Wait? && w.phase.job.who == v && !w.phase.job.first)
    ==> w.paths[v].Active() == w.seen.paths[v]
  }

  /** Queued item `j`: its new ability is in the spare area, or already in force. */
  ghost predicate ItemOk<P, A>(w: World<P, A>, j: nat)
    requires Formed(w) && QueueOk(w) && j < |w.queue| && !w.phase.Ready? && |w.queue| <= |w.phase.job.items|
  {
    var item := w.phase.job.items[j];
    var c := w.cells[item.key];
    c.area[if j < Flipped(w) then c.ref else 1 - c.ref] == item.value
  }

  /** The published path is in the spare area, and the configuration of a completed switch is
      that of the job. */
  ghost predicate JobOk<P, A>(w: World<P, A>, job: Job<P, A>)
    requires Formed(w) && Meant(w, job)
  {
    var c := w.paths[job.who];
    && (c.Pending() && !job.first ==> c.area[1 - c.ref] == job.path)
    && (!c.Pending() && !job.first ==> Holds(w.seen, job))
  }

  ghost predicate ContentInv<P, A>(w: World<P, A>) {
    && IndexInv(w)
    && (!w.phase.Ready? ==> Once(w.phase.job.items))
    && (forall v: nat :: v < |w.paths| ==> PathOk(w, v))
    && (forall k: nat :: k < |w.cells| ==> ReadOk(w, k))
    && (!w.phase.Ready? ==> forall j: nat :: j < |w.queue| ==> ItemOk(w, j))
    && (w.phase.Wait? ==> JobOk(w, w.phase.job))
  }

  /** The configuration has the job's path and abilities. */
  ghost predicate Holds<P, A>(c: Config<P, A>, job: Job<P, A>) {
    && job.who < |c.paths| && c.paths[job.who] == job.path
    && forall j :: 0 <= j < |job.items| ==>
         job.items[j].key < |c.abilities| && c.abilities[job.items[j].key] == job.items[j].value
  }

  lemma {:induction false} InstallAt<A>(abilities: seq<A>, items: seq<Item<A>>, k: nat)
    requires InDomain(items, |abilities|) && k < |abilities|
    ensures k !in Keys(items) ==> Install(abilities, items)[k] == abilities[k]
    ensures Once(items) ==>
              forall j :: 0 <= j < |items| && items[j].key == k ==> Install(abilities, items)[k] == items[j].value
  {
    if items != [] {
      var n := |items| - 1;
      assert Keys(items) == Keys(items[..n]) + [items[n].key];
      InstallAt(abilities, items[..n], k);
      if Once(items) {
        assert Once(items[..n]) by {
          forall i, j | 0 <= i < j < n ensures Keys(items[..n])[i] != Keys(items[..n])[j] {
            assert Keys(items)[i] != Keys(items)[j];
          }
        }
        forall j | 0 <= j < n && items[j].key == k ensures items[n].key != k {
          assert Keys(items)[j] != Keys(items)[n];
        }
        assert forall j :: 0 <= j < n ==> items[..n][j] == items[j];
      }
    }
  }

  /** Different items of a job have different keys. */
  lemma OtherKey<A>(items: seq<Item<A>>, i: nat, j: nat)
    requires Once(items) && i < |items| && j < |items| && i != j
    ensures items[i].key != items[j].key
  {
    var lo, hi := if i < j then i else j, if i < j then j else i;
    assert Keys(items)[lo] != Keys(items)[hi];
  }

  lemma NotQueuedYet<P, A>(w: World<P, A>)
    requires IndexInv(w) && w.phase.Fill? && Once(w.phase.job.items) && w.phase.done < |w.phase.job.items|
    ensures var key := w.phase.job.items[w.phase.done].key;
            key !in w.queue && !w.cells[key].Pending()
  {
    var items, d := w.phase.job.items, w.phase.done;
    forall j: nat | j < d ensures w.queue[j] != items[d].key {
      OtherKey(items, j, d);
    }
    assert KeyOk(w, items[d].key);
  }

  lemma QueueContent<P, A>(w: World<P, A>)
    requires ContentInv(w) && Enabled(w, Queue)
    ensures ContentInv(Next(w, Queue))
  {
    IndexStep(w, Queue);
    NotQueuedYet(w);
    var r := Next(w, Queue);
    var items, d := w.phase.job.items, w.phase.done;
    forall k: nat | k < |r.cells| ensures ReadOk(r, k) {
      assert ReadOk(w, k);
    }
    forall j: nat | j < |r.queue| ensures ItemOk(r, j) {
      if j < d {
        assert ItemOk(w, j);
        OtherKey(items, j, d);
      }
    }
    forall v: nat | v < |r.paths| ensures PathOk(r, v) {
      assert PathOk(w, v);
    }
  }

  lemma ScribbleContent<P, A>(w: World<P, A>, junk: A)
    requires ContentInv(w) && Enabled(w, Scribble(junk))
    ensures ContentInv(Next(w, Scribble(junk)))
  {
    IndexStep(w, Scribble(junk));
    NotQueuedYet(w);
    var r := Next(w, Scribble(junk));
    var items, d := w.phase.job.items, w.phase.done;
    forall k: nat | k < |r.cells| ensures ReadOk(r, k) {
      assert ReadOk(w, k);
    }
    forall j: nat | j < |r.queue| ensures ItemOk(r, j) {
      assert ItemOk(w, j);
      OtherKey(items, j, d);
    }
    forall v: nat | v < |r.paths| ensures PathOk(r, v) {
      assert PathOk(w, v);
    }
  }

  lemma FlipNextContent<P, A>(w: World<P, A>, v: nat)
    requires ContentInv(w) && Enabled(w, FlipNext(v))
    ensures ContentInv(Next(w, FlipNext(v)))
  {
    IndexStep(w, FlipNext(v));
    OnlyAwaitedFlips(w, v);
    var r := Next(w, FlipNext(v));
    var items, i := w.phase.job.items, w.turns[v].i;
    var key := w.queue[i];
    assert w.queue[..i + 1] == w.queue[..i] + [key];
    forall j: nat | j < i ensures w.queue[j] != key {
      OtherKey(items, j, i);
    }
    assert KeyOk(w, key);
    forall k: nat | k < |r.cells| ensures ReadOk(r, k) {
      assert ReadOk(w, k);
    }
    forall j: nat | j < |r.queue| ensures ItemOk(r, j) {
      assert ItemOk(w, j);
      if j != i {
        OtherKey(items, j, i);
      }
    }
    forall u: nat | u < |r.paths| ensures PathOk(r, u) {
      assert PathOk(w, u);
    }
  }

  /** What the flip of a path makes of the abilities. */
  lemma FlipPathReads<P, A>(w: World<P, A>, v: nat, k: nat)
    requires ContentInv(w) && Enabled(w, FlipPath(v)) && k < |w.cells|
    ensures QueueOk(Next(w, FlipPath(v))) && ReadOk(Next(w, FlipPath(v)), k)
  {
    QueueStep(w, FlipPath(v));
    assert ReadOk(w, k);
    if w.phase.Wait? && w.phase.job.who == v {
      var items := w.phase.job.items;
      InstallAt(w.seen.abilities, items, k);
      assert w.paths[v].Pending() by {
        assert FlippingOk(w, v);
      }
      assert w.queue == Keys(items) && w.queue[..|w.queue|] == w.queue;
      if k in w.queue {
        var j: nat :| j < |w.queue| && w.queue[j] == k;
        assert ItemOk(w, j);
        assert items[j].key == k;
      }
    } else if w.queue != [] {
      OnlyAwaitedFlips(w, v);
    }
  }

  lemma FlipPathJob<P, A>(w: World<P, A>, v: nat)
    requires ContentInv(w) && Enabled(w, FlipPath(v)) && w.phase.Wait?
    ensures JobOk(Next(w, FlipPath(v)), w.phase.job)
  {
    var job, r := w.phase.job, Next(w, FlipPath(v));
    assert FlippingOk(w, v);
    if job.who == v {
      forall j | 0 <= j < |job.items| ensures r.seen.abilities[job.items[j].key] == job.items[j].value {
        InstallAt(w.seen.abilities, job.items, job.items[j].key);
      }
    }
  }

  lemma FlipPathContent<P, A>(w: World<P, A>, v: nat)
    requires ContentInv(w) && Enabled(w, FlipPath(v))
    ensures ContentInv(Next(w, FlipPath(v)))
  {
    IndexStep(w, FlipPath(v));
    var r := Next(w, FlipPath(v));
    assert FlippingOk(w, v);
    forall k: nat | k < |r.cells| ensures ReadOk(r, k) {
      FlipPathReads(w, v, k);
    }
    forall u: nat | u < |r.paths| ensures PathOk(r, u) {
      assert PathOk(w, u);
    }
    if w.phase.Wait? {
      FlipPathJob(w, v);
    }
  }

  lemma OtherContent<P, A>(w: World<P, A>, m: Move<P, A>)
    requires ContentInv(w) && Enabled(w, m) && (m.Begin? ==> Once(m.job.items))
    requires !m.Queue? && !m.Scribble? && !m.FlipNext? && !m.FlipPath?
    ensures ContentInv(Next(w, m))
  {
    IndexStep(w, m);
    var r := Next(w, m);
    forall k: nat | k < |r.cells| ensures ReadOk(r, k) {
      assert ReadOk(w, k) && KeyOk(w, k) && KeyOk(r, k);
    }
    forall v: nat | v < |r.paths| ensures PathOk(r, v) {
      assert PathOk(w, v);
    }
    if !r.phase.Ready? {
      forall j: nat | j < |r.queue| ensures ItemOk(r, j) {
        assert ItemOk(w, j);
      }
    }
  }

  lemma ContentStep<P, A>(w: World<P, A>, m: Move<P, A>)
    requires ContentInv(w) && Enabled(w, m) && (m.Begin? ==> Once(m.job.items))
    ensures ContentInv(Next(w, m))
  {
    if m.Queue? {
      QueueContent(w);
    } else if m.Scribble? {
      ScribbleContent(w, m.junk);
    } else if m.FlipNext? {
      FlipNextContent(w, m.v);
    } else if m.FlipPath? {
      FlipPathContent(w, m.v);
    } else {
      OtherContent(w, m);
    }
  }

  // ----- Runs -----

  ghost predicate Runs<P, A>(w: World<P, A>, moves: seq<Move<P, A>>)
    requires Formed(w)
    decreases |moves|
  {
    moves == [] || (Enabled(w, moves[0]) && Runs(Next(w, moves[0]), moves[1..]))
  }

  ghost function End<P, A>(w: World<P, A>, moves: seq<Move<P, A>>): (e: World<P, A>)
    requires Formed(w) && Runs(w, moves)
    ensures Formed(e) && |e.paths| == |w.paths|
    decreases |moves|
  {
    if moves == [] then w else End(Next(w, moves[0]), moves[1..])
  }

  /** Every job of the run names each key at most once. */
  ghost predicate OnceEach<P, A>(moves: seq<Move<P, A>>) {
    forall i :: 0 <= i < |moves| && moves[i].Begin? ==> Once(moves[i].job.items)
  }

  lemma OnceRest<P, A>(moves: seq<Move<P, A>>)
    requires OnceEach(moves) && moves != []
    ensures OnceEach(moves[1..]) && (moves[0].Begin? ==> Once(moves[0].job.items))
  {
    assert forall i :: 0 <= i < |moves| - 1 ==> moves[1..][i] == moves[i + 1];
  }

  lemma {:induction false} RunContent<P, A>(w: World<P, A>, moves: seq<Move<P, A>>)
    requires ContentInv(w) && Runs(w, moves) && OnceEach(moves)
    ensures ContentInv(End(w, moves))
    decreases |moves|
  {
    if moves != [] {
      OnceRest(moves);
      ContentStep(w, moves[0]);
      RunContent(Next(w, moves[0]), moves[1..]);
    }
  }

  /** No worker has taken anything up; ability references 0 and updates 1, as
      `spp_port_ability_init` leaves them, and paths with indices apart or, for a classifier,
      equal. */
  ghost predicate Initial<P, A>(w: World<P, A>) {
    && Formed(w) && w.queue == [] && w.phase.Ready?
    && (forall v :: 0 <= v < |w.paths| ==>
          w.turns[v].Absent? && w.holds[v].Free? && w.uses[v] == {} && w.seen.paths[v] == w.paths[v].Active())
    && forall k :: 0 <= k < |w.cells| ==>
         w.cells[k].ref == 0 && w.cells[k].upd == 1 && w.seen.abilities[k] == w.cells[k].Active()
  }

  /** If every switch queues each port and direction at most once, then in every interleaving
      of the manager and all workers: the manager never writes an ability area that is in force,
      nor a path in force that is not new; only the awaited worker moves queued references; and
      when a switch is complete its path and all its abilities are in force.  What becomes of
      an area that a worker has fetched before a switch is the subject of AbilityHeld. */
  lemma RunSwitches<P, A>(w: World<P, A>, moves: seq<Move<P, A>>)
    requires Initial(w) && Runs(w, moves) && OnceEach(moves)
    ensures var e := End(w, moves);
            && (e.phase.Fill? && e.phase.done < |e.phase.job.items| ==>
                  e.cells[e.phase.job.items[e.phase.done].key].upd != e.cells[e.phase.job.items[e.phase.done].key].ref)
            && (e.phase.Fill? && !e.phase.job.first ==> e.paths[e.phase.job.who].upd != e.paths[e.phase.job.who].ref)
            && (forall v: nat :: v < |e.turns| && e.turns[v].Flipping? && e.queue != [] ==>
                  e.phase.Wait? && e.phase.job.who == v)
            && (e.phase.Wait? && !e.paths[e.phase.job.who].Pending() && !e.phase.job.first ==> InForce(e, e.phase.job))
  {
    assert ContentInv(w);
    RunContent(w, moves);
    var e := End(w, moves);
    if e.phase.Fill? && e.phase.done < |e.phase.job.items| {
      NotQueuedYet(e);
    }
    forall v: nat | v < |e.turns| && e.turns[v].Flipping? && e.queue != []
      ensures e.phase.Wait? && e.phase.job.who == v
    {
      OnlyAwaitedFlips(e, v);
    }
    if e.phase.Wait? && !e.paths[e.phase.job.who].Pending() && !e.phase.job.first {
      Completed(e);
    }
  }

  /** The path and the abilities of the job are those the indices name. */
  ghost predicate InForce<P, A>(w: World<P, A>, job: Job<P, A>)
    requires Formed(w) && Meant(w, job)
  {
    && w.paths[job.who].Active() == job.path
    && forall j :: 0 <= j < |job.items| ==> w.cells[job.items[j].key].Active() == job.items[j].value
  }

  lemma FlippingPending<P, A>(w: World<P, A>, v: nat)
    requires Formed(w) && QueueOk(w) && v < |w.turns|
    ensures w.turns[v].Flipping? ==> w.paths[v].Pending()
  {
    assert w.turns[v].Flipping? ==> FlippingOk(w, v);
  }

  lemma Completed<P, A>(w: World<P, A>)
    requires ContentInv(w) && w.phase.Wait? && !w.paths[w.phase.job.who].Pending() && !w.phase.job.first
    ensures InForce(w, w.phase.job)
  {
    var job := w.phase.job;
    FlippingPending(w, job.who);
    assert PathOk(w, job.who) && Flipped(w) == 0;
    forall j | 0 <= j < |job.items| ensures w.cells[job.items[j].key].Active() == job.items[j].value {
      assert ReadOk(w, job.items[j].key);
    }
  }
}
