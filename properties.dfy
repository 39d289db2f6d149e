/** Properties of the batch handler: the shuffle keeps inputs and outputs
    paired, the path stack is pushed once per collecting hop and popped once
    per signing hop, the phase never goes back, and what the signing phase
    does with the path and the participants. */
module BatchProperties {
  import opened BatchTypes
  import opened Shuffle
  import opened Routing
  import opened Batch

  function Min(a: nat, b: nat): nat { if a <= b then a else b }

  /** Zip, shuffle and unzip: both sides come out with the length of the
      shorter side, the multiset of pairs is kept, and each side is the same
      shuffle (same draws) of its own prefix, so position i of both sides
      comes from one original pair. */
  lemma ShuffledPairsAligned<A, B>(xs: seq<A>, ys: seq<B>, rng: Rng, first: nat)
    ensures var m := Min(|xs|, |ys|);
            var r := Unzip(Shuffled(Zip(xs, ys), rng, first));
            |r.0| == m && |r.1| == m &&
            multiset(Zip(r.0, r.1)) == multiset(Zip(xs, ys)) &&
            r.0 == Shuffled(xs[..m], rng, first) &&
            r.1 == Shuffled(ys[..m], rng, first)
  {
    var pairs := Zip(xs, ys);
    var shuffled := Shuffled(pairs, rng, first);
    ZipUnzip(shuffled);
    ShuffledProjects(pairs, rng, first);
    UnzipZip(xs, ys);
  }

  /** With sides of equal length nothing is lost: each side keeps its
      elements with their multiplicities. */
  lemma ShuffledPairsKeepSides<A, B>(xs: seq<A>, ys: seq<B>, rng: Rng, first: nat)
    requires |xs| == |ys|
    ensures multiset(Unzip(Shuffled(Zip(xs, ys), rng, first)).0) == multiset(xs)
    ensures multiset(Unzip(Shuffled(Zip(xs, ys), rng, first)).1) == multiset(ys)
  {
    var pairs := Zip(xs, ys);
    var u := Unzip(pairs);
    UnzipZip(xs, ys);
    assert u.0 == xs[..|xs|] == xs;
    assert u.1 == ys[..|ys|] == ys;
    ShuffledProjects(pairs, rng, first);
    var r := Unzip(Shuffled(pairs, rng, first));
    assert r.0 == Shuffled(xs, rng, first);
    assert r.1 == Shuffled(ys, rng, first);
  }

  /** The PSBT shuffle: inputs and outputs are each shuffled as aligned pairs
      (truncated to the shorter side when the sides differ in length), the
      output shuffle takes its draws after those of the input shuffle, and
      nothing else in the PSBT changes. */
  lemma ShuffledPsbtAligned(psbt: Psbt, rng: Rng)
    ensures var s := ShuffledPsbt(psbt, rng);
            var mi := Min(|psbt.inputs|, |psbt.unsignedTx.input|);
            var mo := Min(|psbt.outputs|, |psbt.unsignedTx.output|);
            |s.inputs| == mi && |s.unsignedTx.input| == mi &&
            |s.outputs| == mo && |s.unsignedTx.output| == mo &&
            multiset(Zip(s.inputs, s.unsignedTx.input)) == multiset(Zip(psbt.inputs, psbt.unsignedTx.input)) &&
            multiset(Zip(s.outputs, s.unsignedTx.output)) == multiset(Zip(psbt.outputs, psbt.unsignedTx.output)) &&
            s.inputs == Shuffled(psbt.inputs[..mi], rng, 0) &&
            s.unsignedTx.input == Shuffled(psbt.unsignedTx.input[..mi], rng, 0) &&
            s.outputs == Shuffled(psbt.outputs[..mo], rng, DrawCount(mi)) &&
            s.unsignedTx.output == Shuffled(psbt.unsignedTx.output[..mo], rng, DrawCount(mi)) &&
            s.globals == psbt.globals &&
            s.unsignedTx.version == psbt.unsignedTx.version &&
            s.unsignedTx.lockTime == psbt.unsignedTx.lockTime
  {
    ShuffledPairsAligned(psbt.inputs, psbt.unsignedTx.input, rng, 0);
    var mi := Min(|psbt.inputs|, |psbt.unsignedTx.input|);
    ShuffledPairsAligned(psbt.outputs, psbt.unsignedTx.output, rng, DrawCount(mi));
  }

  /** When the PSBT was aligned, the shuffle only reorders: every input,
      raw input, output and raw output is kept with its multiplicity. */
  lemma ShuffledPsbtIsPermutation(psbt: Psbt, rng: Rng)
    requires |psbt.inputs| == |psbt.unsignedTx.input|
    requires |psbt.outputs| == |psbt.unsignedTx.output|
    ensures var s := ShuffledPsbt(psbt, rng);
            multiset(s.inputs) == multiset(psbt.inputs) &&
            multiset(s.unsignedTx.input) == multiset(psbt.unsignedTx.input) &&
            multiset(s.outputs) == multiset(psbt.outputs) &&
            multiset(s.unsignedTx.output) == multiset(psbt.unsignedTx.output)
  {
    ShuffledPairsKeepSides(psbt.inputs, psbt.unsignedTx.input, rng, 0);
    var mi := Min(|psbt.inputs|, |psbt.unsignedTx.input|);
    ShuffledPairsKeepSides(psbt.outputs, psbt.unsignedTx.output, rng, DrawCount(mi));
  }

  /** The eight-bit cast: below 256 participants the quota test compares the
      true count; from 256 on it compares the count modulo 256, so a large
      enough list can fail a quota it exceeds. */
  lemma QuotaTestWraps(participants: seq<NodeId>, maxParticipants: uint8)
    ensures |participants| < 0x100 ==> (QuotaMet(participants, maxParticipants) <==> |participants| >= maxParticipants)
    ensures 0x100 <= |participants| < 0x100 + maxParticipants ==> !QuotaMet(participants, maxParticipants)
  {
  }

  /** The decoded PSBT and the locals after the join and quota steps, when
      decoding and funding succeed. */
  function AfterQuota(node: NodeContext, ev: ReceivedEvent): (st: Option<Locals>)
    ensures st.Some? ==> st.value.hops == ev.request.hops
  {
    match node.codec.decode(ev.request.psbtHex)
    case None => None
    case Some(psbt) =>
      match Join(node.wallet, ev, psbt)
      case Err(_) => None
      case Ok(joined) => Some(Quota(joined, ev.request.maxParticipants, node.rng))
  }

  /** Every forward either pushes one hop (collecting) or pops one hop
      (signing), and a message received in the signing phase is never sent
      on in the collecting phase. */
  lemma HopsBalance(node: NodeContext, ev: ReceivedEvent)
    ensures var out := Received(node, ev);
            var hops := ev.request.hops;
            (out.Forward? && !out.request.sign ==>
               !ev.request.sign && out.request.hops == hops + [ev.receiver]) &&
            (out.Forward? && out.request.sign ==>
               hops != [] && out.request.hops == hops[..|hops| - 1])
  {
  }

  /** The PSBT is stored only by a node whose received path stack is empty,
      and only in the signing phase. */
  lemma StoredOnlyWithEmptyPath(node: NodeContext, ev: ReceivedEvent)
    ensures var out := Received(node, ev);
            out.Stored? ==>
              ev.request.hops == [] &&
              AfterQuota(node, ev).Some? && AfterQuota(node, ev).value.sign
  {
  }

  /** Finalisation depends on the path stack alone: a signing-phase message
      with an empty path stack, received by a node that is not listed and
      whose wallet stores the PSBT, is stored even if other participants are
      still listed as owing a signature. */
  lemma StoresDespiteListedSigners(node: NodeContext, ev: ReceivedEvent, psbt: Psbt)
    requires node.codec.decode(ev.request.psbtHex) == Some(psbt)
    requires ev.request.sign && ev.request.hops == []
    requires ev.receiver !in ev.request.participants
    requires var p := if QuotaMet(ev.request.participants, ev.request.maxParticipants)
                      then ShuffledPsbt(psbt, node.rng) else psbt;
             node.wallet.pushToBatch(node.codec.encode(p))
    ensures Received(node, ev).Stored?
  {
  }

  /** The quota step is not guarded by the incoming phase flag: a message
      already in the signing phase whose participant count still meets the
      quota has its PSBT shuffled again before it is signed. */
  lemma SigningPhaseReshuffles(node: NodeContext, ev: ReceivedEvent, psbt: Psbt)
    requires node.codec.decode(ev.request.psbtHex) == Some(psbt)
    requires ev.request.sign
    requires QuotaMet(ev.request.participants, ev.request.maxParticipants)
    ensures AfterQuota(node, ev) == Some(Locals(ev.request.participants, ev.request.hops, ShuffledPsbt(psbt, node.rng), true))
  {
  }

  /** The receiver leaves the participant list when it signs: the list sent
      on from the signing phase never holds the receiver, except that a
      message delegated because the receiver has no channel to the popped
      node lists that node again, and it may be the receiver itself. */
  lemma SignerRemoved(node: NodeContext, ev: ReceivedEvent)
    ensures var out := Received(node, ev);
            out.Forward? && out.request.sign ==>
              ev.receiver !in out.request.participants ||
              (ev.request.hops != [] && ev.receiver == ev.request.hops[|ev.request.hops| - 1] &&
               !node.channels.hasChannelWith(ev.receiver) && out.to != ev.receiver)
  {
  }
}
