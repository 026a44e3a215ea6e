/** The forwarding pass of spp_nfv over its patch table, with statistics records that
    several ports may share. */
module NfvForward {
  import opened SppTypes

  type Packet = nat

  datatype Stats = Stats(rx: nat, tx: nat, txDrop: nat)

  /** An entry of the table: whether the port exists, and the port it is patched to. */
  datatype Patch = Patch(present: bool, out: Option<nat>)

  /** `record` says which record a port counts in.  The last three are history. */
  datatype State = State(table: seq<Patch>, record: seq<nat>, stats: seq<Stats>,
                         received: seq<Packet>, sent: seq<Packet>, freed: seq<Packet>)

  const MAX_PKT_BURST: nat := 32

  ghost predicate Sound(s: State) {
    && |s.record| == |s.table|
    && (forall i :: 0 <= i < |s.record| ==> s.record[i] < |s.stats|)
    && (forall i :: 0 <= i < |s.table| && s.table[i].out.Some? ==> s.table[i].out.value < |s.table|)
  }

  /** Ports that are present and patched forward. */
  predicate Forwards(s: State, i: nat)
    requires i < |s.table|
  {
    s.table[i].present && s.table[i].out.Some?
  }

  /** Packets of one burst received on port `i`, of which the other port takes `accept` at most. */
  ghost function Transfer(s: State, i: nat, burst: seq<Packet>, accept: nat): (r: State)
    requires Sound(s) && i < |s.table|
    ensures Sound(r) && r.table == s.table && r.record == s.record && |r.stats| == |s.stats|
  {
    if !Forwards(s, i) then s
    else
      var n, a, b := Min(accept, |burst|), s.record[i], s.record[s.table[i].out.value];
      var st1 := s.stats[a := s.stats[a].(rx := s.stats[a].rx + |burst|)];
      var st2 := st1[b := st1[b].(tx := st1[b].tx + n, txDrop := st1[b].txDrop + |burst| - n)];
      s.(stats := st2, received := s.received + burst, sent := s.sent + burst[..n], freed := s.freed + burst[n..])
  }

  /** A pass over the first `k` ports. */
  ghost function Pass(s: State, k: nat, bursts: seq<seq<Packet>>, accepts: seq<nat>): (r: State)
    requires Sound(s) && k <= |s.table| == |bursts| == |accepts|
    ensures Sound(r) && r.table == s.table && r.record == s.record && |r.stats| == |s.stats|
  {
    if k == 0 then s else Transfer(Pass(s, k - 1, bursts, accepts), k - 1, bursts[k - 1], accepts[k - 1])
  }

  // ----- Conservation -----

  function Rx(st: seq<Stats>): nat { if st == [] then 0 else Rx(st[..|st| - 1]) + st[|st| - 1].rx }
  function Tx(st: seq<Stats>): nat { if st == [] then 0 else Tx(st[..|st| - 1]) + st[|st| - 1].tx }
  function Dropped(st: seq<Stats>): nat { if st == [] then 0 else Dropped(st[..|st| - 1]) + st[|st| - 1].txDrop }

  lemma {:induction false} SumUpdate(st: seq<Stats>, a: nat, x: Stats)
    requires a < |st|
    ensures Rx(st[a := x]) == Rx(st) - st[a].rx + x.rx
    ensures Tx(st[a := x]) == Tx(st) - st[a].tx + x.tx
    ensures Dropped(st[a := x]) == Dropped(st) - st[a].txDrop + x.txDrop
  {
    var n := |st| - 1;
    if a == n {
      assert st[a := x][..n] == st[..n];
    } else {
      assert st[a := x][..n] == st[..n][a := x];
      SumUpdate(st[..n], a, x);
    }
  }

  /** Over all records, whichever ports share them: what was received was sent or dropped,
      the counters count it, and no packet is lost or duplicated. */
  ghost predicate Balanced(s: State) {
    && Rx(s.stats) == Tx(s.stats) + Dropped(s.stats)
    && Rx(s.stats) == |s.received| && Tx(s.stats) == |s.sent| && Dropped(s.stats) == |s.freed|
    && multiset(s.received) == multiset(s.sent) + multiset(s.freed)
  }

  lemma TransferBalanced(s: State, i: nat, burst: seq<Packet>, accept: nat)
    requires Sound(s) && i < |s.table| && Balanced(s)
    ensures Balanced(Transfer(s, i, burst, accept))
  {
    if Forwards(s, i) {
      var n, a, b := Min(accept, |burst|), s.record[i], s.record[s.table[i].out.value];
      SumUpdate(s.stats, a, s.stats[a].(rx := s.stats[a].rx + |burst|));
      var st1 := s.stats[a := s.stats[a].(rx := s.stats[a].rx + |burst|)];
      SumUpdate(st1, b, st1[b].(tx := st1[b].tx + n, txDrop := st1[b].txDrop + |burst| - n));
      assert burst == burst[..n] + burst[n..];
    }
  }

  lemma {:induction false} PassBalanced(s: State, k: nat, bursts: seq<seq<Packet>>, accepts: seq<nat>, r: State)
    requires Sound(s) && k <= |s.table| == |bursts| == |accepts| && Balanced(s)
    requires r == Pass(s, k, bursts, accepts)
    ensures Balanced(r)
  {
    if k > 0 {
      var m := Pass(s, k - 1, bursts, accepts);
      PassBalanced(s, k - 1, bursts, accepts, m);
      TransferBalanced(m, k - 1, bursts[k - 1], accepts[k - 1]);
    }
  }

  // ----- Which record counts what -----

  /** How many packets of the burst the port it is patched to takes, and how many it refuses. */
  function Taken(burst: seq<Packet>, accept: nat): nat { if accept < |burst| then accept else |burst| }

  /** Which ports count in which record: the receptions of port `i` in `record[i]`, the
      transmissions in the record of the port it is patched to. */
  predicate ReceivesIn(table: seq<Patch>, record: seq<nat>, i: nat, x: nat)
    requires i < |table| == |record|
  {
    table[i].present && table[i].out.Some? && record[i] == x
  }

  predicate SendsIn(table: seq<Patch>, record: seq<nat>, i: nat, x: nat)
    requires i < |table| == |record|
  {
    table[i].present && table[i].out.Some? && table[i].out.value < |record| && record[table[i].out.value] == x
  }

  /** Over the first `k` ports: the lengths of the bursts of ports whose receptions count in
      record `x`; of what is taken over, and of what is refused, of bursts whose transmissions do. */
  function RxSum(table: seq<Patch>, record: seq<nat>, bursts: seq<seq<Packet>>, k: nat, x: nat): nat
    requires k <= |table| == |record| == |bursts|
  {
    if k == 0 then 0
    else RxSum(table, record, bursts, k - 1, x) + (if ReceivesIn(table, record, k - 1, x) then |bursts[k - 1]| else 0)
  }

  function TxSum(table: seq<Patch>, record: seq<nat>, bursts: seq<seq<Packet>>, accepts: seq<nat>, k: nat, x: nat): nat
    requires k <= |table| == |record| == |bursts| == |accepts|
  {
    if k == 0 then 0
    else TxSum(table, record, bursts, accepts, k - 1, x)
         + (if SendsIn(table, record, k - 1, x) then Taken(bursts[k - 1], accepts[k - 1]) else 0)
  }

  function DropSum(table: seq<Patch>, record: seq<nat>, bursts: seq<seq<Packet>>, accepts: seq<nat>, k: nat, x: nat): nat
    requires k <= |table| == |record| == |bursts| == |accepts|
  {
    if k == 0 then 0
    else DropSum(table, record, bursts, accepts, k - 1, x)
         + (if SendsIn(table, record, k - 1, x) then |bursts[k - 1]| - Taken(bursts[k - 1], accepts[k - 1]) else 0)
  }

  /** The packets taken over and those refused, in the order of the ports. */
  function SentBy(table: seq<Patch>, bursts: seq<seq<Packet>>, accepts: seq<nat>, k: nat): seq<Packet>
    requires k <= |table| == |bursts| == |accepts|
  {
    if k == 0 then []
    else SentBy(table, bursts, accepts, k - 1)
         + (if table[k - 1].present && table[k - 1].out.Some? then bursts[k - 1][..Taken(bursts[k - 1], accepts[k - 1])] else [])
  }

  function FreedBy(table: seq<Patch>, bursts: seq<seq<Packet>>, accepts: seq<nat>, k: nat): seq<Packet>
    requires k <= |table| == |bursts| == |accepts|
  {
    if k == 0 then []
    else FreedBy(table, bursts, accepts, k - 1)
         + (if table[k - 1].present && table[k - 1].out.Some? then bursts[k - 1][Taken(bursts[k - 1], accepts[k - 1])..] else [])
  }

  lemma TransferPerRecord(s: State, i: nat, burst: seq<Packet>, accept: nat, x: nat)
    requires Sound(s) && i < |s.table| && x < |s.stats|
    ensures var r := Transfer(s, i, burst, accept);
            && r.stats[x].rx == s.stats[x].rx + (if ReceivesIn(s.table, s.record, i, x) then |burst| else 0)
            && r.stats[x].tx == s.stats[x].tx + (if SendsIn(s.table, s.record, i, x) then Taken(burst, accept) else 0)
            && r.stats[x].txDrop == s.stats[x].txDrop + (if SendsIn(s.table, s.record, i, x) then |burst| - Taken(burst, accept) else 0)
  {
  }

  /** A pass adds to each record the bursts of the ports whose receptions count in it, and the
      packets taken over and refused of the bursts whose transmissions count in it, whichever
      records coincide; the packets taken over are the fronts of the bursts. */
  lemma {:induction false} PassPerRecord(s: State, k: nat, bursts: seq<seq<Packet>>, accepts: seq<nat>, r: State, x: nat)
    requires Sound(s) && k <= |s.table| == |bursts| == |accepts| && x < |s.stats| && r == Pass(s, k, bursts, accepts)
    ensures r.stats[x].rx == s.stats[x].rx + RxSum(s.table, s.record, bursts, k, x)
    ensures r.stats[x].tx == s.stats[x].tx + TxSum(s.table, s.record, bursts, accepts, k, x)
    ensures r.stats[x].txDrop == s.stats[x].txDrop + DropSum(s.table, s.record, bursts, accepts, k, x)
  {
    if k > 0 {
      var q := Pass(s, k - 1, bursts, accepts);
      PassPerRecord(s, k - 1, bursts, accepts, q, x);
      TransferPerRecord(q, k - 1, bursts[k - 1], accepts[k - 1], x);
    }
  }

  /** What a whole pass leaves in every record. */
  ghost predicate Counted(table: seq<Patch>, record: seq<nat>, bursts: seq<seq<Packet>>, accepts: seq<nat>,
                          before: seq<Stats>, after: seq<Stats>)
    requires |table| == |record| == |bursts| == |accepts|
  {
    |after| == |before| && forall x: nat :: x < |before| ==> CountedIn(table, record, bursts, accepts, before, after, x)
  }

  ghost predicate CountedIn(table: seq<Patch>, record: seq<nat>, bursts: seq<seq<Packet>>, accepts: seq<nat>,
                            before: seq<Stats>, after: seq<Stats>, x: nat)
    requires |table| == |record| == |bursts| == |accepts| && x < |before| == |after|
  {
    && after[x].rx == before[x].rx + RxSum(table, record, bursts, |table|, x)
    && after[x].tx == before[x].tx + TxSum(table, record, bursts, accepts, |table|, x)
    && after[x].txDrop == before[x].txDrop + DropSum(table, record, bursts, accepts, |table|, x)
  }

  lemma {:induction false} PassPackets(s: State, k: nat, bursts: seq<seq<Packet>>, accepts: seq<nat>, r: State)
    requires Sound(s) && k <= |s.table| == |bursts| == |accepts| && r == Pass(s, k, bursts, accepts)
    ensures r.sent == s.sent + SentBy(s.table, bursts, accepts, k)
    ensures r.freed == s.freed + FreedBy(s.table, bursts, accepts, k)
  {
    if k > 0 {
      var q := Pass(s, k - 1, bursts, accepts);
      PassPackets(s, k - 1, bursts, accepts, q);
      var b, n := bursts[k - 1], Taken(bursts[k - 1], accepts[k - 1]);
      if s.table[k - 1].present && s.table[k - 1].out.Some? {
        Associates(s.sent, SentBy(s.table, bursts, accepts, k - 1), b[..n]);
        Associates(s.freed, FreedBy(s.table, bursts, accepts, k - 1), b[n..]);
      }
    }
  }

  lemma Associates<T>(a: seq<T>, b: seq<T>, c: seq<T>)
    ensures (a + b) + c == a + (b + c)
  {
  }

  /** Between two passes commands may change the table and which record a port counts in. */
  datatype Event = Repatch(table: seq<Patch>, record: seq<nat>) | Forward(bursts: seq<seq<Packet>>, accepts: seq<nat>)

  ghost predicate Possible(s: State, e: Event) {
    match e
    case Repatch(table, record) => Sound(s.(table := table, record := record))
    case Forward(bursts, accepts) => Sound(s) && |s.table| == |bursts| == |accepts|
  }

  ghost function Next(s: State, e: Event): State
    requires Possible(s, e)
  {
    match e
    case Repatch(table, record) => s.(table := table, record := record)
    case Forward(bursts, accepts) => Pass(s, |s.table|, bursts, accepts)
  }

  ghost predicate Run(s: State, es: seq<Event>)
    decreases |es|
  {
    es == [] || (Possible(s, es[0]) && Run(Next(s, es[0]), es[1..]))
  }

  ghost function After(s: State, es: seq<Event>): State
    requires Run(s, es)
    decreases |es|
  {
    if es == [] then s else After(Next(s, es[0]), es[1..])
  }

  /** Whatever is received, accepted and repatched over a run. */
  lemma {:induction false} RunBalanced(s: State, es: seq<Event>)
    requires Balanced(s) && Run(s, es)
    ensures Balanced(After(s, es))
    decreases |es|
  {
    if es != [] {
      if es[0].Forward? {
        PassBalanced(s, |s.table|, es[0].bursts, es[0].accepts, Next(s, es[0]));
      }
      RunBalanced(Next(s, es[0]), es[1..]);
    }
  }

  // ----- Which record counts what, over a run -----

  /** The table and the records' assignment after an event. */
  function TableAfter(table: seq<Patch>, e: Event): seq<Patch> { if e.Repatch? then e.table else table }
  function RecordAfter(record: seq<nat>, e: Event): seq<nat> { if e.Repatch? then e.record else record }

  /** Bursts and answers for every port there is. */
  predicate Fits(table: seq<Patch>, record: seq<nat>, es: seq<Event>)
    decreases |es|
  {
    es == [] ||
    ((es[0].Forward? ==> |table| == |record| == |es[0].bursts| == |es[0].accepts|)
     && Fits(TableAfter(table, es[0]), RecordAfter(record, es[0]), es[1..]))
  }

  /** The three sums over all passes of a run, each with the table then in force. */
  function RunRx(table: seq<Patch>, record: seq<nat>, es: seq<Event>, x: nat): nat
    requires Fits(table, record, es)
    decreases |es|
  {
    if es == [] then 0
    else (if es[0].Forward? then RxSum(table, record, es[0].bursts, |table|, x) else 0)
         + RunRx(TableAfter(table, es[0]), RecordAfter(record, es[0]), es[1..], x)
  }

  function RunTx(table: seq<Patch>, record: seq<nat>, es: seq<Event>, x: nat): nat
    requires Fits(table, record, es)
    decreases |es|
  {
    if es == [] then 0
    else (if es[0].Forward? then TxSum(table, record, es[0].bursts, es[0].accepts, |table|, x) else 0)
         + RunTx(TableAfter(table, es[0]), RecordAfter(record, es[0]), es[1..], x)
  }

  function RunDrop(table: seq<Patch>, record: seq<nat>, es: seq<Event>, x: nat): nat
    requires Fits(table, record, es)
    decreases |es|
  {
    if es == [] then 0
    else (if es[0].Forward? then DropSum(table, record, es[0].bursts, es[0].accepts, |table|, x) else 0)
         + RunDrop(TableAfter(table, es[0]), RecordAfter(record, es[0]), es[1..], x)
  }

  lemma {:induction false} RunFits(s: State, es: seq<Event>)
    requires Run(s, es)
    ensures Fits(s.table, s.record, es)
    decreases |es|
  {
    if es != [] {
      RunFits(Next(s, es[0]), es[1..]);
    }
  }

  lemma NextPerRecord(s: State, e: Event, x: nat)
    requires Possible(s, e) && x < |s.stats|
    ensures var r := Next(s, e);
            && r.table == TableAfter(s.table, e) && r.record == RecordAfter(s.record, e) && |r.stats| == |s.stats|
            && (if e.Forward? then
                  && r.stats[x].rx == s.stats[x].rx + RxSum(s.table, s.record, e.bursts, |s.table|, x)
                  && r.stats[x].tx == s.stats[x].tx + TxSum(s.table, s.record, e.bursts, e.accepts, |s.table|, x)
                  && r.stats[x].txDrop == s.stats[x].txDrop + DropSum(s.table, s.record, e.bursts, e.accepts, |s.table|, x)
                else r.stats == s.stats)
  {
    if e.Forward? {
      PassPerRecord(s, |s.table|, e.bursts, e.accepts, Next(s, e), x);
    }
  }

  /** Over every run, with tables and records changed in between: what each record has counted. */
  lemma {:induction false} RunPerRecord(s: State, es: seq<Event>, x: nat)
    requires Run(s, es) && x < |s.stats|
    ensures Fits(s.table, s.record, es) && |After(s, es).stats| == |s.stats|
    ensures After(s, es).stats[x].rx == s.stats[x].rx + RunRx(s.table, s.record, es, x)
    ensures After(s, es).stats[x].tx == s.stats[x].tx + RunTx(s.table, s.record, es, x)
    ensures After(s, es).stats[x].txDrop == s.stats[x].txDrop + RunDrop(s.table, s.record, es, x)
    decreases |es|
  {
    RunFits(s, es);
    if es != [] {
      NextPerRecord(s, es[0], x);
      RunPerRecord(Next(s, es[0]), es[1..], x);
    }
  }

  /** The process: table, record numbers and records, updated in place. */
  class Nfv {
    const table: array<Patch>
    const record: array<nat>
    const stats: array<Stats>
    var received: seq<Packet>
    var sent: seq<Packet>
    var freed: seq<Packet>

    constructor (n: nat, records: nat)
      requires n > 0 ==> records > 0
      ensures fresh(table) && fresh(record) && fresh(stats) && Sound(View()) && table.Length == n
      ensures received == sent == freed == [] && forall k :: 0 <= k < stats.Length ==> stats[k] == Stats(0, 0, 0)
    {
      table := new Patch[n](_ => Patch(false, None));
      record := new nat[n](_ => 0);
      stats := new Stats[records](_ => Stats(0, 0, 0));
      received, sent, freed := [], [], [];
    }

    ghost function View(): State
      reads this, table, record, stats
    {
      State(table[..], record[..], stats[..], received, sent, freed)
    }

    /** One port's turn in `forward`. */
    method TransferBurst(i: nat, burst: seq<Packet>, accept: nat)
      requires Sound(View()) && i < table.Length && Forwards(View(), i) && burst != []
      modifies this, stats
      ensures View() == Transfer(old(View()), i, burst, accept)
      ensures forall x: nat :: x < stats.Length ==>
                && stats[x].rx == old(stats[x].rx) + (if record[i] == x then |burst| else 0)
                && stats[x].tx == old(stats[x].tx) + (if record[table[i].out.value] == x then Taken(burst, accept) else 0)
                && stats[x].txDrop == old(stats[x].txDrop)
                                      + (if record[table[i].out.value] == x then |burst| - Taken(burst, accept) else 0)
    {
      var outPort := table[i].out.value;
      var nbRx := |burst|;
      var a, b := record[i], record[outPort];
      stats[a] := stats[a].(rx := stats[a].rx + nbRx);
      var nbTx := Min(accept, nbRx);
      stats[b] := stats[b].(tx := stats[b].tx + nbTx);
      received, sent := received + burst, sent + burst[..nbTx];
      if nbTx < nbRx {
        stats[b] := stats[b].(txDrop := stats[b].txDrop + nbRx - nbTx);
      }
      FreeRest(burst, nbTx);
      assert View().stats == Transfer(old(View()), i, burst, accept).stats;
    }

    method FreeRest(burst: seq<Packet>, nbTx: nat)
      requires nbTx <= |burst|
      modifies this`freed
      ensures freed == old(freed) + burst[nbTx..]
    {
      var buf := nbTx;
      while buf < |burst|
        invariant nbTx <= buf <= |burst| && freed == old(freed) + burst[nbTx..buf]
      {
        freed := freed + [burst[buf]];
        assert burst[nbTx..buf + 1] == burst[nbTx..buf] + [burst[buf]];
        buf := buf + 1;
      }
    }

    /** `forward`: one pass over all ports. */
    method ForwardAll(bursts: seq<seq<Packet>>, accepts: seq<nat>)
      requires Sound(View()) && table.Length == |bursts| == |accepts|
      requires forall i :: 0 <= i < |bursts| ==> |bursts[i]| <= MAX_PKT_BURST
      modifies this, stats
      ensures View() == Pass(old(View()), table.Length, bursts, accepts)
      ensures Counted(table[..], record[..], bursts, accepts, old(stats[..]), stats[..])
      ensures sent == old(sent) + SentBy(table[..], bursts, accepts, table.Length)
      ensures freed == old(freed) + FreedBy(table[..], bursts, accepts, table.Length)
    {
      var i := 0;
      while i < table.Length
        invariant 0 <= i <= table.Length && Sound(View())
        invariant View() == Pass(old(View()), i, bursts, accepts)
      {
        if table[i].present && table[i].out.Some? && |bursts[i]| != 0 {
          TransferBurst(i, bursts[i], accepts[i]);
        } else {
          NothingReceived(View(), i, bursts[i], accepts[i]);
        }
        i := i + 1;
      }
      WholePass(old(View()), bursts, accepts, View());
    }
  }

  lemma WholePass(s: State, bursts: seq<seq<Packet>>, accepts: seq<nat>, r: State)
    requires Sound(s) && |s.table| == |bursts| == |accepts| && r == Pass(s, |bursts|, bursts, accepts)
    ensures r.sent == s.sent + SentBy(s.table, bursts, accepts, |bursts|)
    ensures r.freed == s.freed + FreedBy(s.table, bursts, accepts, |bursts|)
    ensures Counted(s.table, s.record, bursts, accepts, s.stats, r.stats)
  {
    PassPackets(s, |bursts|, bursts, accepts, r);
    forall x: nat | x < |s.stats| ensures CountedIn(s.table, s.record, bursts, accepts, s.stats, r.stats, x) {
      PassPerRecord(s, |bursts|, bursts, accepts, r, x);
    }
  }

  lemma NothingReceived(s: State, i: nat, burst: seq<Packet>, accept: nat)
    requires Sound(s) && i < |s.table| && (!Forwards(s, i) || burst == [])
    ensures Transfer(s, i, burst, accept) == s
  {
    if Forwards(s, i) {
      var r := Transfer(s, i, burst, accept);
      assert r.stats == s.stats && r.received == s.received && r.sent == s.sent && r.freed == s.freed;
    }
  }
}
