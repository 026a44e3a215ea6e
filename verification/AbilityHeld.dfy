/** The ability areas workers have fetched.  A worker goes on using the area it fetched for a
    burst when the reference index moves on; the manager waits only for the worker of the
    component it deals with.  So an area is safe as long as no port, in one direction, serves
    components of two lcores, and exactly then. */
module AbilityHeld {
  import opened SppTypes
  import opened AbilitySwitch
  import opened AbilityIterations
  import Handover

  /** What a worker holds is of a key its path uses, and it is in an iteration. */
  ghost predicate HoldOk<P, A>(w: World<P, A>, v: nat)
    requires Formed(w) && v < |w.holds|
  {
    w.holds[v].Held? ==> Inside(w.turns[v]) && w.holds[v].key in w.uses[v] && w.holds[v].key < |w.cells|
  }

  /** A worker runs one component at a time. */
  ghost predicate Orderly<P, A>(w: World<P, A>) {
    && Formed(w)
    && (forall v :: 0 <= v < |w.holds| ==> HoldOk(w, v))
    && forall u, v :: 0 <= u < |w.turns| && 0 <= v < |w.turns| && u != v && w.lcores[u] == w.lcores[v] ==>
         !Inside(w.turns[u]) || !Inside(w.turns[v])
  }

  /** Every area held is the one in force. */
  ghost predicate HeldCurrent<P, A>(w: World<P, A>) {
    forall v :: 0 <= v < |w.holds| && w.holds[v].Held? ==>
      w.holds[v].key < |w.cells| && w.holds[v].area == w.cells[w.holds[v].key].ref
  }

  /** The area the manager is about to write is one that a worker holds. */
  ghost predicate Hits<P, A>(w: World<P, A>)
    requires Formed(w)
  {
    && w.phase.Fill? && w.phase.done < |w.phase.job.items|
    && var k := w.phase.job.items[w.phase.done].key; Held(k, w.cells[k].upd) in w.holds
  }

  /** Component `u`, on the list of another lcore, uses key `k`, which the job switches. */
  ghost predicate SharedBy<P, A>(w: World<P, A>, job: Job<P, A>, u: nat, k: nat)
    requires Formed(w) && job.who < |w.paths|
  {
    && u < |w.paths| && u != job.who && !w.turns[u].Absent? && w.lcores[u] != w.lcores[job.who]
    && k in w.uses[u] && k in Keys(job.items)
  }

  ghost predicate Shared<P, A>(w: World<P, A>, job: Job<P, A>)
    requires Formed(w) && job.who < |w.paths|
  {
    exists u: nat, k: nat :: SharedBy(w, job, u, k)
  }

  // ----- Single moves -----

  lemma OrderlyStep<P, A>(w: World<P, A>, m: Move<P, A>)
    requires Orderly(w) && Enabled(w, m)
    ensures Orderly(Next(w, m))
  {
    var r := Next(w, m);
    forall v | 0 <= v < |r.holds| ensures HoldOk(r, v) {
      assert HoldOk(w, v);
    }
  }

  /** A move leaves a worker with an area that is no longer in force exactly if it moves the
      reference of a key that another worker holds. */
  lemma StepCurrentIff<P, A>(w: World<P, A>, m: Move<P, A>)
    requires ContentInv(w) && Orderly(w) && HeldCurrent(w) && Enabled(w, m)
    ensures HeldCurrent(Next(w, m))
            <==> !(m.FlipNext? && exists v :: 0 <= v < |w.holds| && w.holds[v].Held? && w.holds[v].key == w.queue[w.turns[m.v].i])
  {
    if m.FlipNext? {
      FlippedIsPending(w, m.v);
    }
  }

  lemma FlippedIsPending<P, A>(w: World<P, A>, v: nat)
    requires ContentInv(w) && Enabled(w, FlipNext(v))
    ensures w.cells[w.queue[w.turns[v].i]].Pending()
  {
    OnlyAwaitedFlips(w, v);
    var i, k := w.turns[v].i, w.queue[w.turns[v].i];
    forall x | 0 <= x < i ensures w.queue[x] != k {
      OtherKey(w.phase.job.items, x, i);
    }
    assert KeyOk(w, k);
  }

  /** The job under way is of a component that shares no key with another lcore. */
  ghost predicate Unshared<P, A>(w: World<P, A>)
    requires Formed(w)
  {
    !w.phase.Ready? ==> !Shared(w, w.phase.job)
  }

  lemma SharedStays<P, A>(w: World<P, A>, m: Move<P, A>, job: Job<P, A>, u: nat, k: nat)
    requires Formed(w) && Enabled(w, m) && !m.Relist? && job.who < |w.paths|
    requires !w.phase.Ready? ==> w.phase.job.who == job.who
    ensures SharedBy(Next(w, m), job, u, k) <==> SharedBy(w, job, u, k)
  {
  }

  lemma UnsharedStep<P, A>(w: World<P, A>, m: Move<P, A>)
    requires Formed(w) && Enabled(w, m) && Unshared(w) && (m.Begin? ==> !Shared(w, m.job))
    ensures Unshared(Next(w, m))
  {
    var r := Next(w, m);
    if !r.phase.Ready? {
      forall u: nat, k: nat ensures !SharedBy(r, r.phase.job, u, k) {
        if m.Begin? {
          assert !SharedBy(w, m.job, u, k);
        } else {
          SharedStays(w, m, w.phase.job, u, k);
        }
      }
    }
  }

  /** If `v` holds the area of `k`, it is the one in force. */
  ghost predicate HoldCurrent<P, A>(w: World<P, A>, v: nat, k: nat) {
    v < |w.holds| && w.holds[v].Held? && w.holds[v].key == k ==> k < |w.cells| && w.holds[v].area == w.cells[k].ref
  }

  lemma HoldStep<P, A>(w: World<P, A>, m: Move<P, A>, v: nat, k: nat)
    requires ContentInv(w) && Orderly(w) && HoldCurrent(w, v, k) && Enabled(w, m)
    requires !w.phase.Ready? ==> !SharedBy(w, w.phase.job, v, k)
    ensures HoldCurrent(Next(w, m), v, k)
  {
    if m.FlipNext? && v < |w.holds| && w.holds[v].Held? && w.holds[v].key == k {
      OnlyAwaitedFlips(w, m.v);
      assert HoldOk(w, v);
      assert w.queue[w.turns[m.v].i] == Keys(w.phase.job.items)[w.turns[m.v].i];
    }
  }

  lemma HeldStep<P, A>(w: World<P, A>, m: Move<P, A>)
    requires ContentInv(w) && Orderly(w) && HeldCurrent(w) && Unshared(w) && Enabled(w, m)
    ensures HeldCurrent(Next(w, m))
  {
    var r := Next(w, m);
    forall v | 0 <= v < |r.holds| && r.holds[v].Held?
      ensures r.holds[v].key < |r.cells| && r.holds[v].area == r.cells[r.holds[v].key].ref
    {
      if !w.phase.Ready? {
        assert !SharedBy(w, w.phase.job, v, r.holds[v].key);
      }
      HoldStep(w, m, v, r.holds[v].key);
    }
  }

  /** With all areas held in force, the manager writes none of them. */
  lemma CurrentNotHit<P, A>(w: World<P, A>)
    requires ContentInv(w) && HeldCurrent(w)
    ensures !Hits(w)
  {
    if w.phase.Fill? && w.phase.done < |w.phase.job.items| {
      NotQueuedYet(w);
    }
  }

  // ----- Runs -----

  /** No switch of the run begins while its component shares a key with another lcore. */
  ghost predicate NoneShared<P, A>(w: World<P, A>, moves: seq<Move<P, A>>)
    requires Formed(w) && Runs(w, moves)
    decreases |moves|
  {
    moves == [] || ((moves[0].Begin? ==> !Shared(w, moves[0].job)) && NoneShared(Next(w, moves[0]), moves[1..]))
  }

  ghost predicate HeldInv<P, A>(w: World<P, A>) {
    ContentInv(w) && Orderly(w) && HeldCurrent(w) && Unshared(w)
  }

  lemma {:induction false} RunHeld<P, A>(w: World<P, A>, moves: seq<Move<P, A>>)
    requires HeldInv(w) && Runs(w, moves) && OnceEach(moves) && NoneShared(w, moves)
    ensures HeldInv(End(w, moves))
    decreases |moves|
  {
    if moves != [] {
      OnceRest(moves);
      ContentStep(w, moves[0]);
      OrderlyStep(w, moves[0]);
      HeldStep(w, moves[0]);
      UnsharedStep(w, moves[0]);
      RunHeld(Next(w, moves[0]), moves[1..]);
    }
  }

  /** In every interleaving of a run whose switches share no key with another lcore: every
      ability area a worker holds stays the one in force while it is held, and is never
      written. */
  lemma HeldSafe<P, A>(w: World<P, A>, moves: seq<Move<P, A>>)
    requires Initial(w) && Runs(w, moves) && OnceEach(moves) && NoneShared(w, moves)
    ensures HeldCurrent(End(w, moves)) && !Hits(End(w, moves))
  {
    assert ContentInv(w) && Orderly(w);
    RunHeld(w, moves);
    CurrentNotHit(End(w, moves));
  }

  /** No switch of the run begins while it is of another lcore than that of `v` and concerns the
      key `k` that `v` uses. */
  ghost predicate NeverSharedBy<P, A>(w: World<P, A>, moves: seq<Move<P, A>>, v: nat, k: nat)
    requires Formed(w) && Runs(w, moves)
    decreases |moves|
  {
    moves == [] ||
    ((moves[0].Begin? ==> !SharedBy(w, moves[0].job, v, k)) && NeverSharedBy(Next(w, moves[0]), moves[1..], v, k))
  }

  lemma NotSharedStep<P, A>(w: World<P, A>, m: Move<P, A>, v: nat, k: nat)
    requires Formed(w) && Enabled(w, m) && (!w.phase.Ready? ==> !SharedBy(w, w.phase.job, v, k))
    requires m.Begin? ==> !SharedBy(w, m.job, v, k)
    ensures var r := Next(w, m); !r.phase.Ready? ==> !SharedBy(r, r.phase.job, v, k)
  {
    if !w.phase.Ready? {
      SharedStays(w, m, w.phase.job, v, k);
    }
  }

  lemma {:induction false} RunHold<P, A>(w: World<P, A>, moves: seq<Move<P, A>>, v: nat, k: nat)
    requires ContentInv(w) && Orderly(w) && HoldCurrent(w, v, k) && (!w.phase.Ready? ==> !SharedBy(w, w.phase.job, v, k))
    requires Runs(w, moves) && OnceEach(moves) && NeverSharedBy(w, moves, v, k)
    ensures ContentInv(End(w, moves)) && HoldCurrent(End(w, moves), v, k)
    decreases |moves|
  {
    if moves != [] {
      OnceRest(moves);
      ContentStep(w, moves[0]);
      OrderlyStep(w, moves[0]);
      HoldStep(w, moves[0], v, k);
      NotSharedStep(w, moves[0], v, k);
      RunHold(Next(w, moves[0]), moves[1..], v, k);
    }
  }

  /** The same of one worker and one key, whatever is shared elsewhere: over every run in which
      no other lcore's flush concerns the key while the worker's component uses it, the area
      the worker holds is in force, and the manager never writes it. */
  lemma HoldSafe<P, A>(w: World<P, A>, moves: seq<Move<P, A>>, v: nat, k: nat)
    requires Initial(w) && Runs(w, moves) && OnceEach(moves) && NeverSharedBy(w, moves, v, k)
    ensures var e := End(w, moves);
            && HoldCurrent(e, v, k)
            && (v < |e.holds| && e.holds[v].Held? && e.holds[v].key == k
                && e.phase.Fill? && e.phase.done < |e.phase.job.items| && e.phase.job.items[e.phase.done].key == k ==>
                  e.holds[v].area != e.cells[k].upd)
  {
    assert ContentInv(w) && Orderly(w);
    RunHold(w, moves, v, k);
    var e := End(w, moves);
    if e.phase.Fill? && e.phase.done < |e.phase.job.items| {
      NotQueuedYet(e);
    }
  }

  // ----- Reaching states by flushes of one component -----

  /** Switches of the job's component and keys only, and no change of lists. */
  ghost predicate Repeats<P, A>(moves: seq<Move<P, A>>, job: Job<P, A>) {
    forall i :: 0 <= i < |moves| ==>
      !moves[i].Relist? && (moves[i].Begin? ==> moves[i].job.who == job.who && Keys(moves[i].job.items) == Keys(job.items))
  }

  ghost predicate Leads<P, A>(w: World<P, A>, moves: seq<Move<P, A>>, e: World<P, A>, job: Job<P, A>)
    requires Formed(w)
  {
    Runs(w, moves) && Repeats(moves, job) && End(w, moves) == e
  }

  ghost predicate Reaches<P(!new), A(!new)>(w: World<P, A>, e: World<P, A>, job: Job<P, A>)
    requires Formed(w)
  {
    exists moves: seq<Move<P, A>> :: Leads(w, moves, e, job)
  }

  lemma Stand<P(!new), A(!new)>(w: World<P, A>, job: Job<P, A>)
    requires Formed(w)
    ensures Reaches(w, w, job)
  {
    var none: seq<Move<P, A>> := [];
    assert Leads(w, none, w, job);
  }

  lemma Cons<P, A>(w: World<P, A>, m: Move<P, A>, rest: seq<Move<P, A>>)
    requires Formed(w) && Enabled(w, m) && Runs(Next(w, m), rest)
    ensures Runs(w, [m] + rest) && End(w, [m] + rest) == End(Next(w, m), rest)
  {
    assert ([m] + rest)[1..] == rest;
  }

  lemma FirstOff<T>(a: seq<T>, b: seq<T>)
    requires a != []
    ensures a + b == [a[0]] + (a[1..] + b)
  {
  }

  lemma FirstOfSlice<T>(a: seq<T>, d: nat, n: nat)
    requires d < n <= |a|
    ensures a[d..n] == [a[d]] + a[d + 1..n]
  {
  }

  lemma {:induction false} RunsJoin<P, A>(w: World<P, A>, a: seq<Move<P, A>>, b: seq<Move<P, A>>)
    requires Formed(w) && Runs(w, a) && Runs(End(w, a), b)
    ensures Runs(w, a + b) && End(w, a + b) == End(End(w, a), b)
    decreases |a|
  {
    if a == [] {
      assert a + b == b;
    } else {
      RunsJoin(Next(w, a[0]), a[1..], b);
      Cons(w, a[0], a[1..] + b);
      FirstOff(a, b);
    }
  }

  lemma Then<P(!new), A(!new)>(w: World<P, A>, m: World<P, A>, e: World<P, A>, job: Job<P, A>)
    requires Formed(w) && Formed(m) && Reaches(w, m, job) && Reaches(m, e, job)
    ensures Reaches(w, e, job)
  {
    var a :| Leads(w, a, m, job);
    var b :| Leads(m, b, e, job);
    RunsJoin(w, a, b);
    assert Leads(w, a + b, e, job);
  }

  lemma Step<P(!new), A(!new)>(w: World<P, A>, m: Move<P, A>, job: Job<P, A>)
    requires Formed(w) && Enabled(w, m) && !m.Relist?
    requires m.Begin? ==> m.job.who == job.who && Keys(m.job.items) == Keys(job.items)
    ensures Reaches(w, Next(w, m), job)
  {
    var moves := [m];
    assert moves[1..] == [];
    assert Runs(Next(w, m), []);
    assert Leads(w, moves, Next(w, m), job);
  }

  lemma RepeatsOnce<P, A>(moves: seq<Move<P, A>>, job: Job<P, A>)
    requires Repeats(moves, job) && Once(job.items)
    ensures OnceEach(moves)
  {
  }

  lemma ReachesContent<P(!new), A(!new)>(w: World<P, A>, e: World<P, A>, job: Job<P, A>)
    requires ContentInv(w) && Reaches(w, e, job) && Once(job.items)
    ensures ContentInv(e)
  {
    var moves :| Leads(w, moves, e, job);
    RepeatsOnce(moves, job);
    RunContent(w, moves);
  }

  // ----- A flush that hits -----

  /** All but where the workers are and what they hold. */
  ghost predicate OnlyWorkers<P, A>(w: World<P, A>, e: World<P, A>) {
    && e.paths == w.paths && e.uses == w.uses && e.lcores == w.lcores && e.cells == w.cells && e.queue == w.queue
    && e.phase == w.phase && e.seen == w.seen && |e.turns| == |w.turns| && |e.holds| == |w.holds|
    && forall v :: 0 <= v < |w.turns| ==> e.turns[v].Absent? == w.turns[v].Absent?
  }

  /** Between commands, with every listed component settled. */
  ghost predicate Between<P, A>(w: World<P, A>) {
    ContentInv(w) && Orderly(w) && w.phase.Ready? && Settled(w)
  }

  /** The worker of `v` ends its iteration. */
  lemma OutOf<P(!new), A(!new)>(w: World<P, A>, v: nat, job: Job<P, A>) returns (e: World<P, A>)
    requires Between(w) && v < |w.turns|
    ensures Reaches(w, e, job) && Between(e) && OnlyWorkers(w, e) && !Inside(e.turns[v])
    ensures forall u :: 0 <= u < |w.turns| && u != v ==> e.turns[u] == w.turns[u]
  {
    FlippingPending(w, v);
    e := w;
    Stand(w, job);
    if w.turns[v].Using? {
      if w.holds[v].Held? {
        e := Drop(w, v, job);
      }
      var m := e;
      e := Away(m, v, job);
      Then(w, m, e, job);
    }
  }

  lemma Drop<P(!new), A(!new)>(w: World<P, A>, v: nat, job: Job<P, A>) returns (e: World<P, A>)
    requires Between(w) && v < |w.turns| && w.holds[v].Held?
    ensures Reaches(w, e, job) && Between(e) && e == w.(holds := w.holds[v := Free])
  {
    e := Next(w, Release(v));
    Step(w, Release(v), job);
    ContentStep(w, Release(v));
    OrderlyStep(w, Release(v));
  }

  lemma Away<P(!new), A(!new)>(w: World<P, A>, v: nat, job: Job<P, A>) returns (e: World<P, A>)
    requires Between(w) && v < |w.turns| && w.turns[v].Using? && w.holds[v].Free?
    ensures Reaches(w, e, job) && Between(e) && e == w.(turns := w.turns[v := Top])
  {
    e := Next(w, Finish(v));
    Step(w, Finish(v), job);
    ContentStep(w, Finish(v));
    OrderlyStep(w, Finish(v));
  }

  lemma {:induction false} Quieten<P(!new), A(!new)>(w: World<P, A>, n: nat, job: Job<P, A>) returns (e: World<P, A>)
    requires Between(w) && n <= |w.turns|
    ensures Reaches(w, e, job) && Between(e) && OnlyWorkers(w, e)
    ensures forall v :: 0 <= v < n ==> !Inside(e.turns[v])
  {
    if n == 0 {
      e := w;
      Stand(w, job);
    } else {
      var m := Quieten(w, n - 1, job);
      e := OutOf(m, n - 1, job);
      Then(w, m, e, job);
    }
  }

  /** The items from `d` up to `n` are queued. */
  ghost predicate Queued<P, A>(w: World<P, A>, e: World<P, A>, d: nat, n: nat)
    requires Formed(w) && Formed(e) && w.phase.Fill? && d <= n <= |w.phase.job.items|
  {
    && e.paths == w.paths && e.uses == w.uses && e.lcores == w.lcores && e.turns == w.turns && e.holds == w.holds
    && e.phase == Fill(w.phase.job, n) && |e.cells| == |w.cells|
    && (forall k :: 0 <= k < |w.cells| ==> e.cells[k].ref == w.cells[k].ref)
    && forall k :: 0 <= k < |w.cells| && k !in Keys(w.phase.job.items)[d..n] ==> e.cells[k] == w.cells[k]
  }

  lemma {:induction false} QueueUpTo<P(!new), A(!new)>(w: World<P, A>, n: nat) returns (e: World<P, A>)
    requires Formed(w) && w.phase.Fill? && w.phase.done <= n <= |w.phase.job.items|
    ensures Reaches(w, e, w.phase.job) && Formed(e) && Queued(w, e, w.phase.done, n)
    decreases n - w.phase.done
  {
    var d, job := w.phase.done, w.phase.job;
    if d == n {
      e := w;
      Stand(w, job);
    } else {
      var m := QueueOne(w);
      e := QueueUpTo(m, n);
      Then(w, m, e, job);
      QueuedOn(w, m, e, n);
    }
  }

  lemma QueueOne<P(!new), A(!new)>(w: World<P, A>) returns (e: World<P, A>)
    requires Formed(w) && w.phase.Fill? && w.phase.done < |w.phase.job.items|
    ensures Reaches(w, e, w.phase.job) && Formed(e) && Queued(w, e, w.phase.done, w.phase.done + 1)
  {
    var d, ks := w.phase.done, Keys(w.phase.job.items);
    e := Next(w, Queue);
    Step(w, Queue, w.phase.job);
    assert ks[d] in ks[d..d + 1];
  }

  lemma QueuedOn<P, A>(w: World<P, A>, m: World<P, A>, e: World<P, A>, n: nat)
    requires Formed(w) && w.phase.Fill? && w.phase.done < n <= |w.phase.job.items| && Formed(m) && Formed(e)
    requires Queued(w, m, w.phase.done, w.phase.done + 1) && Queued(m, e, w.phase.done + 1, n)
    ensures Queued(w, e, w.phase.done, n)
  {
    FirstOfSlice(Keys(w.phase.job.items), w.phase.done, n);
  }

  /** The worker of `v` moves the references from its place up to `n`. */
  ghost predicate References<P, A>(w: World<P, A>, e: World<P, A>, v: nat, n: nat)
    requires Formed(w) && v < |w.turns|
  {
    && e.paths == w.paths && e.uses == w.uses && e.lcores == w.lcores && e.holds == w.holds
    && e.turns == w.turns[v := Flipping(n)] && e.phase == w.phase && e.queue == w.queue && |e.cells| == |w.cells|
    && forall k :: 0 <= k < |w.cells| ==> e.cells[k].upd == w.cells[k].upd
  }

  lemma {:induction false} FlipUpTo<P(!new), A(!new)>(w: World<P, A>, v: nat, n: nat, job: Job<P, A>) returns (e: World<P, A>)
    requires Formed(w) && v < |w.turns| && w.turns[v].Flipping? && w.holds[v].Free? && w.turns[v].i <= n <= |w.queue|
    ensures Reaches(w, e, job) && Formed(e) && References(w, e, v, n)
    decreases n - w.turns[v].i
  {
    if w.turns[v].i == n {
      e := w;
      Stand(w, job);
    } else {
      var m := Next(w, FlipNext(v));
      Step(w, FlipNext(v), job);
      e := FlipUpTo(m, v, n, job);
      Then(w, m, e, job);
    }
  }

  lemma {:induction false} RunOrderly<P, A>(w: World<P, A>, moves: seq<Move<P, A>>)
    requires Orderly(w) && Runs(w, moves)
    ensures Orderly(End(w, moves))
    decreases |moves|
  {
    if moves != [] {
      OrderlyStep(w, moves[0]);
      RunOrderly(Next(w, moves[0]), moves[1..]);
    }
  }

  lemma ReachesOrderly<P(!new), A(!new)>(w: World<P, A>, e: World<P, A>, job: Job<P, A>)
    requires Orderly(w) && Reaches(w, e, job)
    ensures Orderly(e)
  {
    var moves :| Leads(w, moves, e, job);
    RunOrderly(w, moves);
  }

  lemma Tests<P(!new), A(!new)>(w: World<P, A>, v: nat, job: Job<P, A>) returns (e: World<P, A>)
    requires Formed(w) && v < |w.turns| && w.turns[v].Top? && Alone(w, v)
    ensures Reaches(w, e, job) && e == w.(turns := w.turns[v := if w.paths[v].Pending() then Flipping(0) else Using])
  {
    e := Next(w, Test(v));
    Step(w, Test(v), job);
  }

  lemma Fetches<P(!new), A(!new)>(w: World<P, A>, v: nat, k: nat, job: Job<P, A>) returns (e: World<P, A>)
    requires Formed(w) && v < |w.turns| && w.turns[v].Using? && w.holds[v].Free? && k in w.uses[v] && k < |w.cells|
    ensures Reaches(w, e, job) && e == w.(holds := w.holds[v := Held(k, w.cells[k].ref)])
  {
    e := Next(w, Fetch(v, k));
    Step(w, Fetch(v, k), job);
  }

  /** The worker of `u` begins an iteration and fetches the area of `k`. */
  lemma Grabs<P(!new), A(!new)>(w: World<P, A>, u: nat, k: nat, job: Job<P, A>) returns (e: World<P, A>)
    requires Between(w) && Once(job.items) && u < |w.turns| && w.turns[u].Top? && k in w.uses[u] && k < |w.cells|
    requires forall v :: 0 <= v < |w.turns| ==> !Inside(w.turns[v])
    ensures Reaches(w, e, job) && Between(e)
    ensures e == w.(turns := w.turns[u := Using], holds := w.holds[u := Held(k, w.cells[k].ref)])
  {
    assert HoldOk(w, u);
    var m := Tests(w, u, job);
    assert Formed(m);
    e := Fetches(m, u, k, job);
    Then(w, m, e, job);
    ReachesContent(w, e, job);
    ReachesOrderly(w, e, job);
  }

  lemma Begins<P(!new), A(!new)>(w: World<P, A>, job: Job<P, A>) returns (e: World<P, A>)
    requires Formed(w) && Enabled(w, Begin(job))
    ensures Reaches(w, e, job) && Formed(e) && e == w.(phase := Fill(job, 0))
  {
    e := Next(w, Begin(job));
    Step(w, Begin(job), job);
  }

  lemma Publishes<P(!new), A(!new)>(w: World<P, A>) returns (e: World<P, A>)
    requires Formed(w) && w.phase.Fill? && w.phase.done == |w.phase.job.items|
    ensures Reaches(w, e, w.phase.job) && Formed(e) && e.phase == Wait(w.phase.job)
    ensures e == w.(paths := e.paths, phase := e.phase) && |e.paths| == |w.paths|
    ensures e.paths[w.phase.job.who].Pending()
    ensures forall v :: 0 <= v < |w.paths| && v != w.phase.job.who ==> e.paths[v] == w.paths[v]
  {
    e := Next(w, Publish);
    Step(w, Publish, w.phase.job);
  }

  /** All items queued and the path published; the update index of every key of the job names
      the area that is in force. */
  ghost predicate Handed<P, A>(w: World<P, A>, e: World<P, A>, job: Job<P, A>)
    requires Formed(w) && job.who < |w.paths|
  {
    && e.uses == w.uses && e.lcores == w.lcores && e.turns == w.turns && e.holds == w.holds
    && e.phase == Wait(job) && |e.cells| == |w.cells| && |e.paths| == |w.paths| && e.paths[job.who].Pending()
    && (forall v :: 0 <= v < |w.paths| && v != job.who ==> e.paths[v] == w.paths[v])
    && forall k: nat :: k < |w.cells| && k in Keys(job.items) ==> e.cells[k].upd == w.cells[k].ref
  }

  lemma Hands<P(!new), A(!new)>(w: World<P, A>, job: Job<P, A>) returns (e: World<P, A>)
    requires ContentInv(w) && Enabled(w, Begin(job)) && Once(job.items)
    ensures Reaches(w, e, job) && ContentInv(e) && Handed(w, e, job)
  {
    var b := Begins(w, job);
    var n := |job.items|;
    var q := QueueUpTo(b, n);
    Then(w, b, q, job);
    ReachesContent(w, q, job);
    e := Publishes(q);
    Then(w, q, e, job);
    ReachesContent(w, e, job);
    var ks := Keys(job.items);
    assert ks[..n] == ks;
    forall k: nat | k < |w.cells| && k in ks ensures e.cells[k].upd == w.cells[k].ref {
      assert KeyOk(q, k);
    }
  }

  lemma FlipsPath<P(!new), A(!new)>(w: World<P, A>, job: Job<P, A>) returns (e: World<P, A>)
    requires Formed(w) && w.phase == Wait(job) && w.turns[job.who] == Flipping(|w.queue|) && w.holds[job.who].Free?
    ensures Reaches(w, e, job) && Formed(e) && !e.paths[job.who].Pending() && |e.paths| == |w.paths|
    ensures e == w.(paths := e.paths, uses := w.uses[job.who := job.uses], turns := w.turns[job.who := Using], queue := [], seen := e.seen)
    ensures forall v :: 0 <= v < |w.paths| && v != job.who ==> e.paths[v] == w.paths[v]
  {
    e := Next(w, FlipPath(job.who));
    Step(w, FlipPath(job.who), job);
  }

  lemma Returns<P(!new), A(!new)>(w: World<P, A>, job: Job<P, A>) returns (e: World<P, A>)
    requires Formed(w) && w.phase == Wait(job) && !w.paths[job.who].Pending()
    ensures Reaches(w, e, job) && Formed(e) && e == w.(phase := Ready)
  {
    e := Next(w, Return);
    Step(w, Return, job);
  }

  /** The switch is over: other components are as they were, and the update index of every key
      of the job names the area that was in force before. */
  ghost predicate Switched<P, A>(w: World<P, A>, e: World<P, A>, job: Job<P, A>)
    requires Formed(w) && job.who < |w.paths|
  {
    && e.phase.Ready? && e.uses == w.uses[job.who := job.uses] && e.lcores == w.lcores
    && e.turns == w.turns[job.who := Using] && e.holds == w.holds && |e.cells| == |w.cells|
    && |e.paths| == |w.paths| && !e.paths[job.who].Pending()
    && (forall v :: 0 <= v < |w.paths| && v != job.who ==> e.paths[v] == w.paths[v])
    && forall k: nat :: k < |w.cells| && k in Keys(job.items) ==> e.cells[k].upd == w.cells[k].ref
  }

  /** From the publication on: the worker flips all references and its path, and the manager
      returns. */
  lemma Serves<P(!new), A(!new)>(w: World<P, A>, job: Job<P, A>) returns (e: World<P, A>)
    requires Formed(w) && w.phase == Wait(job) && w.paths[job.who].Pending()
    requires w.turns[job.who].Top? && Alone(w, job.who) && w.holds[job.who].Free?
    ensures Reaches(w, e, job) && Formed(e) && e.phase.Ready?
    ensures e == w.(paths := e.paths, uses := w.uses[job.who := job.uses], turns := w.turns[job.who := Using],
                    cells := e.cells, queue := [], phase := Ready, seen := e.seen)
    ensures |e.paths| == |w.paths| && !e.paths[job.who].Pending() && |e.cells| == |w.cells|
    ensures forall v :: 0 <= v < |w.paths| && v != job.who ==> e.paths[v] == w.paths[v]
    ensures forall k :: 0 <= k < |w.cells| ==> e.cells[k].upd == w.cells[k].upd
  {
    var f := FlipsKeys(w, job);
    e := Ends(f, job);
    Then(w, f, e, job);
  }

  lemma FlipsKeys<P(!new), A(!new)>(w: World<P, A>, job: Job<P, A>) returns (e: World<P, A>)
    requires Formed(w) && w.phase == Wait(job) && w.paths[job.who].Pending()
    requires w.turns[job.who].Top? && Alone(w, job.who) && w.holds[job.who].Free?
    ensures Reaches(w, e, job) && Formed(e) && |e.cells| == |w.cells|
    ensures e == w.(turns := w.turns[job.who := Flipping(|w.queue|)], cells := e.cells, seen := e.seen)
    ensures forall k :: 0 <= k < |w.cells| ==> e.cells[k].upd == w.cells[k].upd
  {
    var t := Tests(w, job.who, job);
    e := FlipUpTo(t, job.who, |t.queue|, job);
    Then(w, t, e, job);
  }

  lemma Ends<P(!new), A(!new)>(w: World<P, A>, job: Job<P, A>) returns (e: World<P, A>)
    requires Formed(w) && w.phase == Wait(job) && w.turns[job.who] == Flipping(|w.queue|) && w.holds[job.who].Free?
    ensures Reaches(w, e, job) && Formed(e) && !e.paths[job.who].Pending() && |e.paths| == |w.paths|
    ensures e == w.(paths := e.paths, uses := w.uses[job.who := job.uses], turns := w.turns[job.who := Using], queue := [],
                    phase := Ready, seen := e.seen)
    ensures forall v :: 0 <= v < |w.paths| && v != job.who ==> e.paths[v] == w.paths[v]
  {
    var p := FlipsPath(w, job);
    e := Returns(p, job);
    Then(w, p, e, job);
  }

  lemma Switches<P(!new), A(!new)>(w: World<P, A>, job: Job<P, A>) returns (e: World<P, A>)
    requires ContentInv(w) && Orderly(w) && Enabled(w, Begin(job)) && Once(job.items)
    requires w.turns[job.who].Top? && Alone(w, job.who)
    ensures Reaches(w, e, job) && ContentInv(e) && Switched(w, e, job)
  {
    assert HoldOk(w, job.who);
    var h := Hands(w, job);
    assert Alone(h, job.who);
    e := Serves(h, job);
    Then(w, h, e, job);
    ReachesContent(w, e, job);
  }

  /** The flush of the job begins and queues the keys before `k`. */
  lemma Refills<P(!new), A(!new)>(w: World<P, A>, job: Job<P, A>, k: nat) returns (e: World<P, A>)
    requires ContentInv(w) && Enabled(w, Begin(job)) && Once(job.items) && k < |w.cells| && k in Keys(job.items)
    requires exists u :: 0 <= u < |w.holds| && w.holds[u] == Held(k, w.cells[k].upd)
    ensures Reaches(w, e, job) && Formed(e) && Hits(e)
  {
    var ks := Keys(job.items);
    var j: nat :| j < |ks| && ks[j] == k;
    var b := Begins(w, job);
    e := QueueUpTo(b, j);
    Then(w, b, e, job);
    assert k !in ks[0..j];
    assert job.items[j].key == k && e.cells[k] == w.cells[k];
  }

  /** A run of flushes of the job's component, lists unchanged, that comes to write an area a
      worker holds. */
  ghost predicate HitRun<P, A>(w: World<P, A>, moves: seq<Move<P, A>>, job: Job<P, A>)
    requires Formed(w)
  {
    Runs(w, moves) && Repeats(moves, job) && Hits(End(w, moves))
  }

  lemma HitFrom<P(!new), A(!new)>(w: World<P, A>, job: Job<P, A>, u: nat, k: nat) returns (moves: seq<Move<P, A>>)
    requires Between(w) && Enabled(w, Begin(job)) && Once(job.items) && !w.turns[job.who].Absent?
    requires SharedBy(w, job, u, k)
    ensures HitRun(w, moves, job)
  {
    KeyInDomain(job.items, k, |w.cells|);
    var a := Quieten(w, |w.turns|, job);
    var b := Grabs(a, u, k, job);
    Then(w, a, b, job);
    var d := HitHeld(b, job, u, k);
    Then(w, b, d, job);
    moves :| Leads(w, moves, d, job);
  }

  /** With `k` held on another lcore, two flushes of the component hit. */
  lemma HitHeld<P(!new), A(!new)>(w: World<P, A>, job: Job<P, A>, u: nat, k: nat) returns (e: World<P, A>)
    requires Between(w) && Enabled(w, Begin(job)) && Once(job.items) && w.turns[job.who].Top? && Alone(w, job.who)
    requires k < |w.cells| && k in Keys(job.items) && u < |w.holds| && w.holds[u] == Held(k, w.cells[k].ref)
    ensures Reaches(w, e, job) && Formed(e) && Hits(e)
  {
    var c := Switches(w, job);
    assert c.holds[u] == Held(k, c.cells[k].upd);
    AgainEnabled(w, c, job);
    e := Refills(c, job, k);
    Then(w, c, e, job);
  }

  lemma AgainEnabled<P, A>(w: World<P, A>, e: World<P, A>, job: Job<P, A>)
    requires Formed(w) && Formed(e) && Enabled(w, Begin(job)) && job.items != [] && !w.turns[job.who].Absent? && Switched(w, e, job)
    ensures Enabled(e, Begin(job))
  {
  }

  lemma KeyInDomain<A>(items: seq<Item<A>>, k: nat, n: nat)
    requires InDomain(items, n) && k in Keys(items)
    ensures k < n
  {
  }

  lemma {:induction false} RepeatsUnshared<P, A>(w: World<P, A>, moves: seq<Move<P, A>>, job: Job<P, A>)
    requires Formed(w) && Runs(w, moves) && Repeats(moves, job) && job.who < |w.paths| && !Shared(w, job)
    requires !w.phase.Ready? ==> w.phase.job.who == job.who
    ensures NoneShared(w, moves)
    decreases |moves|
  {
    if moves != [] {
      var r := Next(w, moves[0]);
      assert !Shared(r, job) by {
        forall u: nat, k: nat ensures !SharedBy(r, job, u, k) {
          SharedStays(w, moves[0], job, u, k);
        }
      }
      if moves[0].Begin? {
        assert forall u: nat, k: nat :: SharedBy(w, moves[0].job, u, k) == SharedBy(w, job, u, k);
      }
      assert Repeats(moves[1..], job);
      RepeatsUnshared(r, moves[1..], job);
    }
  }

  /** Between commands: flushes of a component can come to write an ability area that a worker
      holds if and only if the component has a key in common with one that another lcore runs.
      One flush moves the reference away from the area, the next one writes it. */
  lemma FlushesHitIff<P(!new), A(!new)>(w: World<P, A>, job: Job<P, A>)
    requires Between(w) && HeldCurrent(w) && Enabled(w, Begin(job)) && Once(job.items) && !w.turns[job.who].Absent?
    ensures (exists moves :: HitRun(w, moves, job)) <==> Shared(w, job)
  {
    if Shared(w, job) {
      var u: nat, k: nat :| SharedBy(w, job, u, k);
      var moves := HitFrom(w, job, u, k);
    } else {
      forall moves ensures !HitRun(w, moves, job) {
        if Runs(w, moves) && Repeats(moves, job) {
          RepeatsUnshared(w, moves, job);
          RepeatsOnce(moves, job);
          RunHeld(w, moves);
          CurrentNotHit(End(w, moves));
        }
      }
    }
  }

  // ----- A run from the start -----

  /** The two components come onto the lists of lcores 0 and 1. */
  function Listing<P>(a: Handover.Cell<P>, b: Handover.Cell<P>): map<nat, Slot<P>> {
    map[0 := Slot(Top, 0, a, {}), 1 := Slot(Top, 1, b, {})]
  }

  lemma ListsTwo<P, A>(w: World<P, A>) returns (e: World<P, A>)
    requires Initial(w) && |w.paths| == 2 && !w.paths[0].Pending() && !w.paths[1].Pending()
    ensures Enabled(w, Relist(Listing(w.paths[0], w.paths[1]))) && e == Next(w, Relist(Listing(w.paths[0], w.paths[1])))
    ensures Between(e) && e.paths == w.paths && e.turns == [Top, Top] && e.lcores == [0, 1] && |e.cells| == |w.cells|
  {
    var m: Move<P, A> := Relist(Listing(w.paths[0], w.paths[1]));
    e := Next(w, m);
    assert ContentInv(w) && Orderly(w);
    ContentStep(w, m);
    OrderlyStep(w, m);
    assert e.paths == w.paths && e.turns == [Top, Top] && e.lcores == [0, 1];
  }

  /** From the start, with two components that each have the port of key `k`: lists, a flush of
      the one, and two of the other, each queueing the key once, come to write the area that
      the first one's worker holds. */
  lemma HitFromStart<P(!new), A(!new)>(w: World<P, A>, k: nat, x: A, y: A, p: P, q: P) returns (moves: seq<Move<P, A>>)
    requires Initial(w) && |w.paths| == 2 && !w.paths[0].Pending() && !w.paths[1].Pending() && k < |w.cells|
    ensures Runs(w, moves) && OnceEach(moves) && Hits(End(w, moves))
  {
    var list: Move<P, A> := Relist(Listing(w.paths[0], w.paths[1]));
    var l := ListsTwo(w);
    var rest := HitFromLists(l, k, OneKey(0, k, x, p), OneKey(1, k, y, q));
    Cons(w, list, rest);
    moves := [list] + rest;
    OnceJoin([list], rest);
  }

  function OneKey<P, A>(who: nat, k: nat, x: A, p: P): (job: Job<P, A>)
    ensures Keys(job.items) == [k] && k in Keys(job.items)
  {
    assert Keys([Item(k, x)])[0] == k;
    Job(who, false, [Item(k, x)], p, {k})
  }

  lemma HitFromLists<P(!new), A(!new)>(w: World<P, A>, k: nat, one: Job<P, A>, two: Job<P, A>) returns (moves: seq<Move<P, A>>)
    requires Between(w) && |w.paths| == 2 && !w.paths[0].Pending() && !w.paths[1].Pending() && k < |w.cells|
    requires w.turns == [Top, Top] && w.lcores == [0, 1] && one.who == 0 && two.who == 1 && !one.first && !two.first
    requires Keys(one.items) == Keys(two.items) == [k] && one.uses == two.uses == {k}
    ensures Runs(w, moves) && OnceEach(moves) && Hits(End(w, moves))
  {
    assert one.items[0].key == Keys(one.items)[0];
    assert k in Keys(one.items);
    var a := FirstFlush(w, one);
    var b := SecondHits(End(w, a), two, k);
    RunsJoin(w, a, b);
    OnceJoin(a, b);
    moves := a + b;
  }

  lemma FirstFlush<P(!new), A(!new)>(w: World<P, A>, job: Job<P, A>) returns (moves: seq<Move<P, A>>)
    requires Between(w) && Enabled(w, Begin(job)) && Once(job.items) && w.turns[job.who].Top? && Alone(w, job.who)
    ensures Runs(w, moves) && OnceEach(moves) && ContentInv(End(w, moves)) && Orderly(End(w, moves))
    ensures Switched(w, End(w, moves), job)
  {
    var e := Switches(w, job);
    ReachesOrderly(w, e, job);
    moves :| Leads(w, moves, e, job);
    RepeatsOnce(moves, job);
  }

  lemma SecondHits<P(!new), A(!new)>(w: World<P, A>, job: Job<P, A>, k: nat) returns (moves: seq<Move<P, A>>)
    requires ContentInv(w) && Orderly(w) && w.phase.Ready? && |w.paths| == 2 && k < |w.cells|
    requires !w.paths[0].Pending() && !w.paths[1].Pending() && w.turns == [Using, Top] && w.lcores == [0, 1] && k in w.uses[0]
    requires job.who == 1 && !job.first && Keys(job.items) == [k] && job.uses == {k}
    ensures Runs(w, moves) && OnceEach(moves) && Hits(End(w, moves))
  {
    assert job.items[0].key == Keys(job.items)[0] == k;
    assert SharedBy(w, job, 0, k);
    moves := HitFrom(w, job, 0, k);
    RepeatsOnce(moves, job);
  }

  lemma OnceJoin<P, A>(a: seq<Move<P, A>>, b: seq<Move<P, A>>)
    requires OnceEach(a) && OnceEach(b)
    ensures OnceEach(a + b)
  {
  }
}
