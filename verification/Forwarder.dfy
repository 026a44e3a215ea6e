/** Forwarders and mergers: filling the path of a component and moving packets along it. */
module Forwarder {
  import opened SppTypes
  import opened Management

  type Packet = nat

  predicate Rejects(c: Component) {
    (c.typ.Forward? && |c.rx| > 1) || |c.tx| > 1
  }

  /** Whatever commands are executed, the flush never meets a forwarder or merger it would
      reject, and looks up a transmit port only where there is one. */
  lemma NeverRejected(m: Mng, cmds: seq<Command>, i: nat)
    requires Managed(m) && forall c :: c in cmds ==> Decodable(c)
    requires i < |ExecuteAll(m, cmds).comps|
    requires ExecuteAll(m, cmds).comps[i].typ.Forward? || ExecuteAll(m, cmds).comps[i].typ.Merge?
    ensures !Rejects(ExecuteAll(m, cmds).comps[i]) && |ExecuteAll(m, cmds).comps[i].tx| <= 1
  {
    RunManaged(m, cmds);
    assert PortsOk(ExecuteAll(m, cmds).comps[i], ExecuteAll(m, cmds).maxPorts);
  }

  /** One area of `forward_info`: for every receive slot the port and its transmit port. */
  class ForwardPath {
    var name: string
    var typ: CompType
    var numRx: nat
    var numTx: nat
    const rx: array<Option<PortIndex>>
    const tx: array<Option<PortIndex>>

    ghost predicate Valid()
      reads this, rx, tx
    {
      rx != tx && rx.Length == tx.Length
    }

    constructor (max: nat)
      ensures Valid() && fresh(rx) && fresh(tx) && rx.Length == max
    {
      name, typ, numRx, numTx := "", Unuse, 0, 0;
      rx := new Option<PortIndex>[max](_ => None);
      tx := new Option<PortIndex>[max](_ => None);
    }

    /** The path mirrors the component: its receive ports in order, each with the
        component's one transmit port if it has one, nothing else. */
    ghost predicate Mirrors(c: Component)
      reads this, rx, tx
    {
      && Valid()
      && name == c.name && typ == c.typ && numRx == |c.rx| <= rx.Length && numTx == |c.tx| <= 1
      && (forall i :: 0 <= i < |c.rx| ==> rx[i] == Some(c.rx[i]))
      && (forall i :: |c.rx| <= i < rx.Length ==> rx[i] == None)
      && (c.tx == [] ==> forall i :: 0 <= i < tx.Length ==> tx[i] == None)
      && (|c.tx| == 1 ==> forall i :: 0 <= i < |c.rx| ==> tx[i] == Some(c.tx[0]))
    }

    /** `spp_forward_update` up to the publication.  The transmit port is only looked up
        when the component has one. */
    method Update(c: Component) returns (ok: bool)
      requires Valid() && |c.rx| <= rx.Length && 1 <= rx.Length
      modifies this, rx, tx
      ensures ok == !Rejects(c)
      ensures ok ==> Mirrors(c)
      ensures !ok ==> Valid() && rx[..] == old(rx[..]) && tx[..] == old(tx[..])
                      && name == old(name) && typ == old(typ) && numRx == old(numRx) && numTx == old(numTx)
    {
      var nrx, ntx := |c.rx|, |c.tx|;
      var max := if nrx > ntx then nrx * ntx else ntx;
      if c.typ.Forward? && nrx > 1 {
        return false;
      }
      if ntx != 0 && ntx != 1 {
        return false;
      }
      forall i | 0 <= i < rx.Length { rx[i] := None; }
      forall i | 0 <= i < tx.Length { tx[i] := None; }
      name, typ, numRx, numTx := c.name, c.typ, nrx, ntx;
      for cnt := 0 to nrx
        modifies rx
        invariant forall i :: 0 <= i < cnt ==> rx[i] == Some(c.rx[i])
        invariant forall i :: cnt <= i < rx.Length ==> rx[i] == None
        invariant forall i :: 0 <= i < tx.Length ==> tx[i] == None
      {
        rx[cnt] := Some(c.rx[cnt]);
      }
      assert ntx == 0 ==> max == 0;
      assert ntx == 1 ==> nrx <= max <= tx.Length;
      for cnt := 0 to max
        modifies tx
        invariant forall i :: 0 <= i < cnt ==> tx[i] == Some(c.tx[0])
        invariant max == 0 ==> forall i :: 0 <= i < tx.Length ==> tx[i] == None
        invariant forall i :: 0 <= i < |c.rx| ==> rx[i] == Some(c.rx[i])
        invariant forall i :: |c.rx| <= i < rx.Length ==> rx[i] == None
      {
        tx[cnt] := Some(c.tx[0]);
      }
      return true;
    }

    /** A merger forwards with at least one receive port, a forwarder with exactly one. */
    predicate Practical()
      reads this
    {
      numTx == 1 && (if typ.Merge? then numRx >= 1 else numRx == 1)
    }

    /** One pass of `spp_forward`.  `bursts[i]` is what slot `i` receives, `accepts[i]` how
        many packets the driver takes over, `attached` whether the transmit port has a
        device.  The transmit count of one slot is carried over to the next when there is
        none; with one transmit port for all slots it then stays 0 and all is freed. */
    method Pass(ghost c: Component, bursts: seq<seq<Packet>>, accepts: seq<nat>, attached: bool)
      returns (sent: seq<seq<Packet>>, freed: seq<seq<Packet>>)
      requires Mirrors(c) && |bursts| == |accepts| == numRx
      requires forall i :: 0 <= i < numRx ==> accepts[i] <= |bursts[i]|
      ensures !Practical() ==> sent == [] && freed == []
      ensures Practical() ==>
                && |sent| == |freed| == numRx
                && forall i :: 0 <= i < numRx ==>
                     sent[i] + freed[i] == bursts[i] && |sent[i]| == (if attached then accepts[i] else 0)
    {
      sent, freed := [], [];
      if !(if typ.Merge? then numTx == 1 && numRx >= 1 else numTx == 1 && numRx == 1) {
        return;
      }
      var nbTx := 0;
      for cnt := 0 to numRx
        invariant |sent| == |freed| == cnt
        invariant !attached ==> nbTx == 0
        invariant forall i :: 0 <= i < cnt ==>
                    sent[i] + freed[i] == bursts[i] && |sent[i]| == (if attached then accepts[i] else 0)
      {
        var bufs := bursts[cnt];
        var nbRx := |bufs|;
        if nbRx == 0 {
          sent, freed := sent + [[]], freed + [[]];
        } else {
          if attached {
            nbTx := accepts[cnt];
          }
          var drop := [];
          if nbTx < nbRx {
            for buf := nbTx to nbRx
              invariant drop == bufs[nbTx..buf]
            {
              drop := drop + [bufs[buf]];
            }
          }
          assert bufs[..nbTx] + drop == bufs;
          sent, freed := sent + [bufs[..nbTx]], freed + [drop];
        }
      }
    }
  }
}
