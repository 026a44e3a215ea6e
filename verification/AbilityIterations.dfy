/** What a worker reads of the path and the abilities of a component from one iteration to the
    next, while the manager and the other workers go on. */
module AbilityIterations {
  import opened SppTypes
  import opened AbilitySwitch
  import Management

  /** The component's first flush is over. */
  ghost predicate SettledAt<P, A>(w: World<P, A>, v: nat)
    requires Formed(w) && v < |w.paths|
  {
    && (w.paths[v].Pending() ==> w.phase.Wait? && w.phase.job.who == v)
    && (!w.phase.Ready? && w.phase.job.who == v ==> !w.phase.job.first)
  }

  /** Component `v` is put on a list, taken off one or given another type. */
  predicate Moves<P, A>(m: Move<P, A>, v: nat) { m.Relist? && v in m.slots }

  lemma ReturnSettles<P, A>(w: World<P, A>)
    requires Formed(w) && Enabled(w, Return)
    ensures SettledAt(Next(w, Return), w.phase.job.who)
  {
  }

  lemma SettledStays<P, A>(w: World<P, A>, m: Move<P, A>, v: nat)
    requires Formed(w) && v < |w.paths| && SettledAt(w, v) && Enabled(w, m) && !Moves(m, v)
    ensures v < |Next(w, m).paths| && SettledAt(Next(w, m), v)
  {
  }

  /** Component `v` stays where it is. */
  ghost predicate Stays<P, A>(moves: seq<Move<P, A>>, v: nat) {
    forall i :: 0 <= i < |moves| ==> !Moves(moves[i], v)
  }

  lemma {:induction false} RunSettled<P, A>(w: World<P, A>, moves: seq<Move<P, A>>, v: nat)
    requires Formed(w) && v < |w.paths| && SettledAt(w, v) && Runs(w, moves) && Stays(moves, v)
    ensures SettledAt(End(w, moves), v)
    decreases |moves|
  {
    if moves != [] {
      SettledStays(w, moves[0], v);
      RunSettled(Next(w, moves[0]), moves[1..], v);
    }
  }

  /** The job is of component `v`, or does not concern key `k`. */
  ghost predicate Apart<P, A>(job: Job<P, A>, v: nat, k: nat) {
    job.who != v ==> k !in Keys(job.items)
  }

  /** Neither the switch under way nor one of the run is of another component and key `k`. */
  ghost predicate Private<P, A>(w: World<P, A>, moves: seq<Move<P, A>>, v: nat, k: nat) {
    && (!w.phase.Ready? ==> Apart(w.phase.job, v, k))
    && forall i :: 0 <= i < |moves| && moves[i].Begin? ==> Apart(moves[i].job, v, k)
  }

  lemma PrivateRest<P, A>(w: World<P, A>, moves: seq<Move<P, A>>, v: nat, k: nat)
    requires Formed(w) && Runs(w, moves) && moves != [] && Private(w, moves, v, k)
    ensures Private(Next(w, moves[0]), moves[1..], v, k)
  {
    assert forall i :: 0 <= i < |moves| - 1 ==> moves[1..][i] == moves[i + 1];
  }

  lemma {:induction false} PrivateEnd<P, A>(w: World<P, A>, moves: seq<Move<P, A>>, v: nat, k: nat)
    requires Formed(w) && Runs(w, moves) && Private(w, moves, v, k)
    ensures Private(End(w, moves), [], v, k)
    decreases |moves|
  {
    if moves != [] {
      PrivateRest(w, moves, v, k);
      PrivateEnd(Next(w, moves[0]), moves[1..], v, k);
    }
  }

  /** Outside its own flipping a settled worker reads what the completed switches put in force. */
  lemma ReadsPath<P, A>(w: World<P, A>, v: nat)
    requires ContentInv(w) && v < |w.paths| && SettledAt(w, v)
    ensures w.paths[v].Active() == w.seen.paths[v]
  {
    assert PathOk(w, v);
  }

  lemma ReadsAbility<P, A>(w: World<P, A>, v: nat, k: nat)
    requires ContentInv(w) && v < |w.paths| && !w.turns[v].Flipping? && k < |w.cells|
    requires !w.phase.Ready? ==> Apart(w.phase.job, v, k)
    ensures w.cells[k].Active() == w.seen.abilities[k]
  {
    assert ReadOk(w, k);
    forall x | 0 <= x < Flipped(w) ensures w.queue[x] != k {
      assert w.queue[x] == Keys(w.phase.job.items)[x];
    }
  }

  lemma SeenPathStep<P, A>(w: World<P, A>, m: Move<P, A>, v: nat)
    requires Formed(w) && v < |w.paths| && Enabled(w, m) && m != FlipPath(v) && !Moves(m, v)
    ensures v < |Next(w, m).seen.paths| && Next(w, m).seen.paths[v] == w.seen.paths[v]
  {
  }

  lemma SeenAbilityStep<P, A>(w: World<P, A>, m: Move<P, A>, v: nat, k: nat)
    requires Formed(w) && Enabled(w, m) && m != FlipPath(v) && k < |w.cells|
    requires !w.phase.Ready? ==> Apart(w.phase.job, v, k)
    ensures |Next(w, m).seen.abilities| == |w.cells| && Next(w, m).seen.abilities[k] == w.seen.abilities[k]
  {
    if m.FlipPath? && w.phase.Wait? && w.phase.job.who == m.v {
      InstallAt(w.seen.abilities, w.phase.job.items, k);
    }
  }

  lemma {:induction false} SeenPath<P, A>(w: World<P, A>, moves: seq<Move<P, A>>, v: nat)
    requires Formed(w) && v < |w.paths| && Runs(w, moves) && FlipPath(v) !in moves && Stays(moves, v)
    ensures End(w, moves).seen.paths[v] == w.seen.paths[v]
    decreases |moves|
  {
    if moves != [] {
      assert moves[0] in moves;
      SeenPathStep(w, moves[0], v);
      SeenPath(Next(w, moves[0]), moves[1..], v);
    }
  }

  lemma {:induction false} SeenAbility<P, A>(w: World<P, A>, moves: seq<Move<P, A>>, v: nat, k: nat)
    requires Formed(w) && Runs(w, moves) && FlipPath(v) !in moves && k < |w.cells| && Private(w, moves, v, k)
    ensures |End(w, moves).cells| == |w.cells| && End(w, moves).seen.abilities[k] == w.seen.abilities[k]
    decreases |moves|
  {
    if moves != [] {
      assert moves[0] in moves;
      SeenAbilityStep(w, moves[0], v, k);
      PrivateRest(w, moves, v, k);
      SeenAbility(Next(w, moves[0]), moves[1..], v, k);
    }
  }

  lemma {:induction false} SameCells<P, A>(w: World<P, A>, moves: seq<Move<P, A>>)
    requires Formed(w) && Runs(w, moves)
    ensures |End(w, moves).cells| == |w.cells|
    decreases |moves|
  {
    if moves != [] {
      SameCells(Next(w, moves[0]), moves[1..]);
    }
  }

  lemma AbilityAgrees<P, A>(w: World<P, A>, moves: seq<Move<P, A>>, v: nat, k: nat)
    requires ContentInv(w) && v < |w.paths| && Runs(w, moves) && OnceEach(moves) && FlipPath(v) !in moves
    requires !w.turns[v].Flipping? && !End(w, moves).turns[v].Flipping?
    requires k < |w.cells| && Private(w, moves, v, k)
    ensures |End(w, moves).cells| == |w.cells| && End(w, moves).cells[k].Active() == w.cells[k].Active()
  {
    RunContent(w, moves);
    PrivateEnd(w, moves, v, k);
    SeenAbility(w, moves, v, k);
    ReadsAbility(w, v, k);
    ReadsAbility(End(w, moves), v, k);
  }

  /** Between two iterations of a component in which its path is not flipped, whatever the
      manager and the other workers do, and wherever other components are moved, its worker
      reads the same path, and the same ability of every key that no other component switches. */
  lemma IterationsAgree<P, A>(w: World<P, A>, moves: seq<Move<P, A>>, v: nat)
    requires ContentInv(w) && v < |w.paths| && SettledAt(w, v) && Runs(w, moves) && OnceEach(moves)
    requires FlipPath(v) !in moves && Stays(moves, v) && w.turns[v].Using? && End(w, moves).turns[v].Using?
    ensures var e := End(w, moves);
            && |e.cells| == |w.cells| && e.paths[v].Active() == w.paths[v].Active()
            && forall k: nat :: k < |w.cells| && Private(w, moves, v, k) ==> e.cells[k].Active() == w.cells[k].Active()
  {
    RunContent(w, moves);
    RunSettled(w, moves, v);
    ReadsPath(w, v);
    ReadsPath(End(w, moves), v);
    SeenPath(w, moves, v);
    SameCells(w, moves);
    forall k: nat | k < |w.cells| && Private(w, moves, v, k) ensures End(w, moves).cells[k].Active() == w.cells[k].Active() {
      AbilityAgrees(w, moves, v, k);
    }
  }

  lemma {:induction false} RunsSplit<P, A>(w: World<P, A>, a: seq<Move<P, A>>, b: seq<Move<P, A>>)
    requires Formed(w) && Runs(w, a + b)
    ensures Runs(w, a) && Runs(End(w, a), b) && End(End(w, a), b) == End(w, a + b)
    decreases |a|
  {
    if a == [] {
      assert a + b == b;
    } else {
      assert (a + b)[1..] == a[1..] + b;
      RunsSplit(Next(w, a[0]), a[1..], b);
    }
  }

  lemma PartOf<P, A>(a: seq<Move<P, A>>, b: seq<Move<P, A>>, v: nat)
    requires OnceEach(a + b) && Stays(a + b, v)
    ensures OnceEach(a) && OnceEach(b) && Stays(a, v) && Stays(b, v)
  {
    forall i | 0 <= i < |a| ensures (a[i].Begin? ==> Once(a[i].job.items)) && !Moves(a[i], v) {
      assert (a + b)[i] == a[i];
    }
    forall i | 0 <= i < |b| ensures (b[i].Begin? ==> Once(b[i].job.items)) && !Moves(b[i], v) {
      assert (a + b)[|a| + i] == b[i];
    }
  }

  lemma PrivateFirst<P, A>(w: World<P, A>, a: seq<Move<P, A>>, b: seq<Move<P, A>>, v: nat, k: nat)
    requires Private(w, a + b, v, k)
    ensures Private(w, a, v, k)
  {
    forall i | 0 <= i < |a| && a[i].Begin? ensures Apart(a[i].job, v, k) {
      assert (a + b)[i] == a[i];
    }
  }

  lemma {:induction false} PrivateAfter<P, A>(w: World<P, A>, a: seq<Move<P, A>>, b: seq<Move<P, A>>, v: nat, k: nat)
    requires Formed(w) && Runs(w, a) && Private(w, a + b, v, k)
    ensures Private(End(w, a), b, v, k)
    decreases |a|
  {
    if a == [] {
      assert a + b == b;
    } else {
      assert (a + b)[1..] == a[1..] + b && (a + b)[0] == a[0];
      assert Private(Next(w, a[0]), a[1..] + b, v, k) by {
        assert forall i :: 0 <= i < |a + b| - 1 ==> (a[1..] + b)[i] == (a + b)[i + 1];
      }
      PrivateAfter(Next(w, a[0]), a[1..], b, v, k);
    }
  }

  /** The run around its one flip of the path of `v`. */
  function Around<P, A>(pre: seq<Move<P, A>>, v: nat, post: seq<Move<P, A>>): seq<Move<P, A>> {
    pre + ([FlipPath(v)] + post)
  }

  lemma RunsThrough<P, A>(w: World<P, A>, pre: seq<Move<P, A>>, post: seq<Move<P, A>>, v: nat)
    requires Formed(w) && Runs(w, Around(pre, v, post)) && OnceEach(Around(pre, v, post)) && Stays(Around(pre, v, post), v)
    ensures Runs(w, pre) && OnceEach(pre) && OnceEach(post) && Stays(pre, v) && Stays(post, v)
    ensures Enabled(End(w, pre), FlipPath(v)) && Runs(Next(End(w, pre), FlipPath(v)), post)
    ensures End(Next(End(w, pre), FlipPath(v)), post) == End(w, Around(pre, v, post))
  {
    var flip: seq<Move<P, A>> := [FlipPath(v)];
    RunsSplit(w, pre, flip + post);
    RunsSplit(End(w, pre), flip, post);
    FlipRuns(End(w, pre), v, flip);
    PartOf(pre, flip + post, v);
    PartOf(flip, post, v);
  }

  lemma FlipRuns<P, A>(m: World<P, A>, v: nat, flip: seq<Move<P, A>>)
    requires Formed(m) && flip == [FlipPath(v)] && Runs(m, flip)
    ensures Enabled(m, FlipPath(v)) && End(m, flip) == Next(m, FlipPath(v))
  {
    assert flip[1..] == [];
    assert Runs(Next(m, flip[0]), []);
  }

  lemma PrivateThrough<P, A>(w: World<P, A>, pre: seq<Move<P, A>>, post: seq<Move<P, A>>, v: nat, k: nat)
    requires Formed(w) && Runs(w, pre) && Private(w, Around(pre, v, post), v, k)
    requires Enabled(End(w, pre), FlipPath(v))
    ensures Private(w, pre, v, k) && Private(Next(End(w, pre), FlipPath(v)), post, v, k)
  {
    var flip: seq<Move<P, A>> := [FlipPath(v)];
    PrivateFirst(w, pre, flip + post, v, k);
    PrivateAfter(w, pre, flip + post, v, k);
    var m := End(w, pre);
    forall i | 0 <= i < |post| && post[i].Begin? ensures Apart(post[i].job, v, k) {
      assert (flip + post)[i + 1] == post[i];
    }
  }

  /** The flip of a settled worker's path is that of the job it was awaited for. */
  lemma FlipInstalls<P, A>(m: World<P, A>, v: nat, k: nat)
    requires ContentInv(m) && v < |m.paths| && SettledAt(m, v) && Enabled(m, FlipPath(v)) && k < |m.cells|
    ensures m.phase.Wait? && m.phase.job.who == v
    ensures var n, job := Next(m, FlipPath(v)), m.phase.job;
            && n.seen.paths[v] == job.path && |n.seen.abilities| == |m.seen.abilities|
            && (forall j :: 0 <= j < |job.items| && job.items[j].key == k ==> n.seen.abilities[k] == job.items[j].value)
            && (k !in Keys(job.items) ==> n.seen.abilities[k] == m.seen.abilities[k])
  {
    assert FlippingOk(m, v);
    InstallAt(m.seen.abilities, m.phase.job.items, k);
  }

  /** Of one key: the job's ability if it names the key, else the one of before. */
  lemma KeyAcrossFlip<P, A>(w: World<P, A>, pre: seq<Move<P, A>>, post: seq<Move<P, A>>, v: nat, k: nat)
    requires ContentInv(w) && v < |w.paths| && SettledAt(w, v)
    requires Runs(w, Around(pre, v, post)) && OnceEach(Around(pre, v, post)) && Stays(Around(pre, v, post), v)
    requires FlipPath(v) !in pre && FlipPath(v) !in post
    requires w.turns[v].Using? && End(w, Around(pre, v, post)).turns[v].Using?
    requires k < |w.cells| && Private(w, Around(pre, v, post), v, k)
    ensures Runs(w, pre) && End(w, pre).phase.Wait?
    ensures var e, items := End(w, Around(pre, v, post)), End(w, pre).phase.job.items;
            && |e.cells| == |w.cells|
            && (forall j :: 0 <= j < |items| && items[j].key == k ==> e.cells[k].Active() == items[j].value)
            && (k !in Keys(items) ==> e.cells[k].Active() == w.cells[k].Active())
  {
    RunsThrough(w, pre, post, v);
    PrivateThrough(w, pre, post, v, k);
    RunContent(w, pre);
    RunSettled(w, pre, v);
    SeenAbility(w, pre, v, k);
    ReadsAbility(w, v, k);
    FlipInstalls(End(w, pre), v, k);
    ContentStep(End(w, pre), FlipPath(v));
    var n := Next(End(w, pre), FlipPath(v));
    AbilityAgrees(n, post, v, k);
    ReadsAbility(n, v, k);
  }

  lemma PathAcrossFlip<P, A>(w: World<P, A>, pre: seq<Move<P, A>>, post: seq<Move<P, A>>, v: nat)
    requires ContentInv(w) && v < |w.paths| && SettledAt(w, v)
    requires Runs(w, Around(pre, v, post)) && OnceEach(Around(pre, v, post)) && Stays(Around(pre, v, post), v)
    requires FlipPath(v) !in pre && FlipPath(v) !in post
    ensures Runs(w, pre) && End(w, pre).phase.Wait? && End(w, pre).phase.job.who == v
    ensures End(w, Around(pre, v, post)).paths[v].Active() == End(w, pre).phase.job.path
  {
    RunsThrough(w, pre, post, v);
    RunContent(w, pre);
    RunSettled(w, pre, v);
    PathAfterFlip(End(w, pre), post, v);
  }

  lemma PathAfterFlip<P, A>(m: World<P, A>, post: seq<Move<P, A>>, v: nat)
    requires ContentInv(m) && v < |m.paths| && SettledAt(m, v) && Enabled(m, FlipPath(v))
    requires Runs(Next(m, FlipPath(v)), post) && OnceEach(post) && Stays(post, v) && FlipPath(v) !in post
    ensures m.phase.Wait? && m.phase.job.who == v
    ensures End(Next(m, FlipPath(v)), post).paths[v].Active() == m.phase.job.path
  {
    assert FlippingOk(m, v);
    assert JobOk(m, m.phase.job);
    ContentStep(m, FlipPath(v));
    SettledStays(m, FlipPath(v), v);
    var n := Next(m, FlipPath(v));
    ReadsPath(n, v);
    RunContent(n, post);
    RunSettled(n, post, v);
    ReadsPath(End(n, post), v);
    SeenPath(n, post, v);
  }

  /** Across the one flip of its path a component goes from one configuration to the other
      whole: the path is the job's, and of the keys no other component switches those of the
      job have the job's abilities and all others the ones of before. */
  lemma FlipChangesTogether<P, A>(w: World<P, A>, pre: seq<Move<P, A>>, post: seq<Move<P, A>>, v: nat)
    requires ContentInv(w) && v < |w.paths| && SettledAt(w, v)
    requires Runs(w, Around(pre, v, post)) && OnceEach(Around(pre, v, post)) && Stays(Around(pre, v, post), v)
    requires FlipPath(v) !in pre && FlipPath(v) !in post
    requires w.turns[v].Using? && End(w, Around(pre, v, post)).turns[v].Using?
    ensures Runs(w, pre) && End(w, pre).phase.Wait? && End(w, pre).phase.job.who == v
    ensures var e, job := End(w, Around(pre, v, post)), End(w, pre).phase.job;
            && |e.cells| == |w.cells| && e.paths[v].Active() == job.path
            && forall k: nat :: k < |w.cells| && Private(w, Around(pre, v, post), v, k) ==>
                 && (forall j :: 0 <= j < |job.items| && job.items[j].key == k ==> e.cells[k].Active() == job.items[j].value)
                 && (k !in Keys(job.items) ==> e.cells[k].Active() == w.cells[k].Active())
  {
    PathAcrossFlip(w, pre, post, v);
    SameCells(w, Around(pre, v, post));
    var e, job := End(w, Around(pre, v, post)), End(w, pre).phase.job;
    forall k: nat | k < |w.cells| && Private(w, Around(pre, v, post), v, k)
      ensures && (forall j :: 0 <= j < |job.items| && job.items[j].key == k ==> e.cells[k].Active() == job.items[j].value)
              && (k !in Keys(job.items) ==> e.cells[k].Active() == w.cells[k].Active())
    {
      KeyAcrossFlip(w, pre, post, v, k);
    }
  }

  /** Between the last reference and its path the worker has the path of before with the
      abilities of after.  This is where a classifier sends the packets waiting in the buffers
      of its old table, so they leave by the abilities of the new one. */
  lemma DrainedByNewAbilities<P, A>(w: World<P, A>, v: nat)
    requires ContentInv(w) && v < |w.paths| && SettledAt(w, v) && w.turns[v] == Flipping(|w.queue|)
    ensures w.phase.Wait? && w.phase.job.who == v && w.paths[v].Active() == w.seen.paths[v]
    ensures forall j :: 0 <= j < |w.phase.job.items| ==>
              w.cells[w.phase.job.items[j].key].Active() == w.phase.job.items[j].value
    ensures forall k :: 0 <= k < |w.cells| && k !in Keys(w.phase.job.items) ==> w.cells[k].Active() == w.seen.abilities[k]
  {
    assert FlippingOk(w, v) && PathOk(w, v);
    assert w.queue == Keys(w.phase.job.items) && w.queue[..Flipped(w)] == w.queue;
    forall j: nat | j < |w.phase.job.items|
      ensures w.cells[w.phase.job.items[j].key].Active() == w.phase.job.items[j].value
    {
      assert ItemOk(w, j);
    }
    forall k: nat | k < |w.cells| && k !in w.queue ensures w.cells[k].Active() == w.seen.abilities[k] {
      assert ReadOk(w, k);
    }
  }

  // ----- Where the conditions come from -----

  /** The keys a component's flush queues: its receive ports, then its transmit ports. */
  function KeysOf(c: Management.Component, key: (PortIndex, RxTx) -> nat): seq<nat> {
    seq(|c.rx|, i requires 0 <= i < |c.rx| => key(c.rx[i], Rx)) + seq(|c.tx|, i requires 0 <= i < |c.tx| => key(c.tx[i], Tx))
  }

  /** The ports of the components have keys of their own. */
  ghost predicate Tells(key: (PortIndex, RxTx) -> nat, ports: set<PortIndex>) {
    forall p, d: RxTx, q, e: RxTx :: p in ports && q in ports && key(p, d) == key(q, e) ==> p == q && d == e
  }

  ghost predicate PortsIn(c: Management.Component, ports: set<PortIndex>) {
    (forall i :: 0 <= i < |c.rx| ==> c.rx[i] in ports) && forall i :: 0 <= i < |c.tx| ==> c.tx[i] in ports
  }

  /** The management invariant gives that each port and direction is queued once. */
  lemma ComponentQueuesOnce(c: Management.Component, maxPorts: nat, key: (PortIndex, RxTx) -> nat, ports: set<PortIndex>)
    requires Management.PortsOk(c, maxPorts) && Tells(key, ports) && PortsIn(c, ports)
    ensures NoDups(KeysOf(c, key))
  {
    var ks, n := KeysOf(c, key), |c.rx|;
    forall i, j | 0 <= i < j < |ks| ensures ks[i] != ks[j] {
      if j < n {
        assert c.rx[i] != c.rx[j];
      } else if i >= n {
        assert c.tx[i - n] != c.tx[j - n];
      }
    }
  }

  lemma KeyOfPort(c: Management.Component, key: (PortIndex, RxTx) -> nat, ports: set<PortIndex>, p: PortIndex, d: RxTx)
    requires Tells(key, ports) && PortsIn(c, ports) && p in ports
    ensures key(p, d) in KeysOf(c, key) <==> p in Management.Ports(c, d)
  {
    var ks, n, k := KeysOf(c, key), |c.rx|, key(p, d);
    if k in ks {
      var i :| 0 <= i < |ks| && ks[i] == k;
      if i < n {
        assert c.rx[i] == p && d == Rx;
      } else {
        assert c.tx[i - n] == p && d == Tx;
      }
    }
    if p in Management.Ports(c, d) {
      var i :| 0 <= i < |Management.Ports(c, d)| && Management.Ports(c, d)[i] == p;
      assert ks[if d == Rx then i else n + i] == k;
    }
  }

  /** While no port serves two components in one direction, the flush of one component does
      not concern the keys of another: the hypothesis of the theorems above. */
  lemma ExclusiveApart(m: Management.Mng, key: (PortIndex, RxTx) -> nat, ports: set<PortIndex>, u: nat, v: nat, k: nat)
    requires Management.Exclusive(m) && Tells(key, ports) && u < |m.comps| && v < |m.comps| && u != v
    requires Management.Live(m.comps[u]) && Management.Live(m.comps[v]) && PortsIn(m.comps[u], ports) && PortsIn(m.comps[v], ports)
    requires k in KeysOf(m.comps[v], key)
    ensures k !in KeysOf(m.comps[u], key)
  {
    var ks, n := KeysOf(m.comps[v], key), |m.comps[v].rx|;
    var i :| 0 <= i < |ks| && ks[i] == k;
    var d: RxTx := if i < n then Rx else Tx;
    var p := if i < n then m.comps[v].rx[i] else m.comps[v].tx[i - n];
    KeyOfPort(m.comps[u], key, ports, p, d);
    KeyOfPort(m.comps[v], key, ports, p, d);
  }

  /** Were the indices of another worker's path equal while ports are queued, that worker would
      put the first of them in force before the path they belong to is even published. */
  lemma UnsettledNeighbourSplits<P, A>(w: World<P, A>, v: nat)
    requires Formed(w) && w.phase.Fill? && w.queue != [] && w.cells[w.queue[0]].Pending()
    requires v < |w.paths| && w.turns[v].Top? && w.paths[v].Pending() && Alone(w, v) && w.holds[v].Free?
    ensures Enabled(w, Test(v)) && Enabled(Next(w, Test(v)), FlipNext(v))
    ensures var r := Next(Next(w, Test(v)), FlipNext(v));
            && r.phase.Fill? && r.paths == w.paths
            && r.cells[w.queue[0]].Active() == w.cells[w.queue[0]].area[1 - w.cells[w.queue[0]].ref]
  {
  }
}
