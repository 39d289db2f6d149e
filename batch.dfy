/** The handling of one received batch message (`PSBTReceived`).

    The handler decodes the PSBT, joins the batch when it is not yet a
    participant, switches to the signing phase once the participant quota is
    reached (shuffling inputs and outputs), and then either forwards the
    message to the next hop of the collecting phase, or signs and sends it
    back along the recorded path, storing the PSBT when the path is used up.

    `Received` states the effect of one event as a function of the event and
    of the node's collaborators; `HandleReceived` is the step-by-step handler
    and is proved to have exactly that effect. */
module Batch {
  import opened BatchTypes
  import opened Shuffle
  import opened Routing

  /** Number of outputs the node asks its wallet to add when joining. */
  const ContributedOutputs: nat := 2

  /** The handler's mutable locals after a step. */
  datatype Locals = Locals(participants: seq<NodeId>, hops: seq<NodeId>, psbt: Psbt, sign: bool)

  /** The fixed output amount passed to the wallet: requested exactly when the
      message asks for a non-zero uniform amount. */
  function UniformAmount(amount: uint64): (r: Option<uint64>)
    ensures r.Some? <==> amount > 0
    ensures r.Some? ==> r.value == amount
  {
    if amount > 0 then Some(amount) else None
  }

  /** A node joins when the batch is still collecting and it is not yet listed. */
  predicate JoinsBatch(ev: ReceivedEvent)
  {
    !ev.request.sign && ev.receiver !in ev.request.participants
  }

  /** The join step on the decoded PSBT: append the receiver and let the wallet
      add its inputs and outputs. */
  function Join(wallet: Wallet, ev: ReceivedEvent, psbt: Psbt): (r: Result<Locals>)
    ensures r.Ok? ==> r.value.hops == ev.request.hops && r.value.sign == ev.request.sign
    ensures r.Err? ==> JoinsBatch(ev) && r.error == FundingFailed
    ensures JoinsBatch(ev) && r.Ok? ==>
              var ps := ev.request.participants;
              |r.value.participants| == |ps| + 1 && r.value.participants[..|ps|] == ps &&
              r.value.participants[|ps|] == ev.receiver
    ensures JoinsBatch(ev) ==>
              var funded := wallet.addUtxos(psbt, ContributedOutputs, UniformAmount(ev.request.uniformAmount),
                                            ev.request.feePerParticipant, false);
              (r.Ok? <==> funded.Some?) && (r.Ok? ==> r.value.psbt == funded.value)
    ensures !JoinsBatch(ev) ==> r == Ok(Locals(ev.request.participants, ev.request.hops, psbt, ev.request.sign))
  {
    var req := ev.request;
    if JoinsBatch(ev) then
      match wallet.addUtxos(psbt, ContributedOutputs, UniformAmount(req.uniformAmount), req.feePerParticipant, false)
      case None => Err(FundingFailed)
      case Some(funded) => Ok(Locals(req.participants + [ev.receiver], req.hops, funded, req.sign))
    else
      Ok(Locals(req.participants, req.hops, psbt, req.sign))
  }

  /** `participants.len() as u8`: the count truncated to eight bits. */
  function ParticipantCount(participants: seq<NodeId>): (n: uint8)
    ensures |participants| < 0x100 ==> n == |participants|
  {
    |participants| % 0x100
  }

  /** The quota test, whatever phase the message is in. */
  predicate QuotaMet(participants: seq<NodeId>, maxParticipants: uint8)
  {
    ParticipantCount(participants) >= maxParticipants
  }

  /** The PSBT with its input pairs shuffled, then its output pairs, both with
      draws from the same generator. */
  function ShuffledPsbt(psbt: Psbt, rng: Rng): (r: Psbt)
    ensures var n := |psbt.inputs|;
            var m := |psbt.unsignedTx.input|;
            |r.inputs| == |r.unsignedTx.input| == (if n <= m then n else m)
    ensures var n := |psbt.outputs|;
            var m := |psbt.unsignedTx.output|;
            |r.outputs| == |r.unsignedTx.output| == (if n <= m then n else m)
    ensures r.globals == psbt.globals
    ensures r.unsignedTx.version == psbt.unsignedTx.version && r.unsignedTx.lockTime == psbt.unsignedTx.lockTime
  {
    var pairedInputs := Zip(psbt.inputs, psbt.unsignedTx.input);
    var inputs := Unzip(Shuffled(pairedInputs, rng, 0));
    var pairedOutputs := Zip(psbt.outputs, psbt.unsignedTx.output);
    var outputs := Unzip(Shuffled(pairedOutputs, rng, DrawCount(|pairedInputs|)));
    psbt.(inputs := inputs.0, outputs := outputs.0,
          unsignedTx := psbt.unsignedTx.(input := inputs.1, output := outputs.1))
  }

  /** The quota step: the phase flag becomes true and the PSBT is shuffled
      whenever the quota test holds, whatever the incoming flag. */
  function Quota(st: Locals, maxParticipants: uint8, rng: Rng): (r: Locals)
    ensures r.participants == st.participants && r.hops == st.hops
    ensures r.sign <==> st.sign || QuotaMet(st.participants, maxParticipants)
    ensures !QuotaMet(st.participants, maxParticipants) ==> r.psbt == st.psbt
    ensures QuotaMet(st.participants, maxParticipants) ==> r.psbt == ShuffledPsbt(st.psbt, rng)
  {
    if QuotaMet(st.participants, maxParticipants) then
      st.(sign := true, psbt := ShuffledPsbt(st.psbt, rng))
    else
      st
  }

  /** The message the handler sends on, with the request's constant fields. */
  function Relay(req: BatchRequest, participants: seq<NodeId>, hops: seq<NodeId>, psbtHex: string, sign: bool): BatchRequest
  {
    req.(participants := participants, hops := hops, psbtHex := psbtHex, sign := sign)
  }

  /** The collecting phase: choose the next hop, push the receiver on the path
      stack and forward. */
  function Collect(node: NodeContext, ev: ReceivedEvent, st: Locals): (out: Outcome)
    ensures var channels := node.channels.openChannels;
            out.Forward? ==>
              NextHop(channels, st.participants, st.hops, ev.prev) == Ok(Some(out.to)) &&
              out.to in channels &&
              out.request.hops == st.hops + [ev.receiver] &&
              out.request.participants == st.participants &&
              !out.request.sign &&
              out.request.psbtHex == node.codec.encode(st.psbt) &&
              out.request.uniformAmount == ev.request.uniformAmount &&
              out.request.feePerParticipant == ev.request.feePerParticipant &&
              out.request.maxParticipants == ev.request.maxParticipants
    ensures var channels := node.channels.openChannels;
            out == Failed(NoLastHop) <==> st.hops == [] && exists c :: c in channels && c !in st.participants
    ensures var channels := node.channels.openChannels;
            out == Failed(NoNextPeer) <==>
              (forall c :: c in channels ==> Skipped(c, st.participants, st.hops)) &&
              (channels == [] || (|channels| > 1 && forall c :: c in channels ==> c == ev.prev))
    ensures out.Forward? || out == Failed(NoLastHop) || out == Failed(NoNextPeer)
  {
    match NextHop(node.channels.openChannels, st.participants, st.hops, ev.prev)
    case Err(e) => Failed(e)
    case Ok(None) => Failed(NoNextPeer)
    case Ok(Some(next)) =>
      Forward(next, Relay(ev.request, st.participants, st.hops + [ev.receiver], node.codec.encode(st.psbt), false))
  }

  /** The signing step: a listed receiver signs and is then removed. */
  function SignOwn(wallet: Wallet, ev: ReceivedEvent, st: Locals): (r: Result<Locals>)
    ensures r.Err? <==> ev.receiver in st.participants && wallet.signPsbt(st.psbt).None?
    ensures r.Err? ==> r.error == SigningFailed
    ensures r.Ok? ==> r.value.hops == st.hops && r.value.sign == st.sign
    ensures r.Ok? ==> r.value.participants == Without(st.participants, ev.receiver)
    ensures r.Ok? && ev.receiver in st.participants ==> r.value.psbt == wallet.signPsbt(st.psbt).value
    ensures r.Ok? && ev.receiver !in st.participants ==> r.value == st
  {
    if ev.receiver in st.participants then
      match wallet.signPsbt(st.psbt)
      case None => Err(SigningFailed)
      case Some(signed) => Ok(st.(psbt := signed, participants := Without(st.participants, ev.receiver)))
    else
      Ok(st)
  }

  /** Routing in the signing phase: pop the path stack and send to the popped
      node when a channel to it exists, else delegate to the last participant
      with a channel; an empty stack means the PSBT is finished. */
  function RouteSigned(node: NodeContext, req: BatchRequest, st: Locals): (out: Outcome)
    ensures out.Forward? ==>
              st.hops != [] &&
              out.request.sign &&
              out.request.hops == st.hops[..|st.hops| - 1] &&
              out.request.psbtHex == node.codec.encode(st.psbt) &&
              out.request.uniformAmount == req.uniformAmount &&
              out.request.feePerParticipant == req.feePerParticipant &&
              out.request.maxParticipants == req.maxParticipants
    ensures st.hops != [] ==>
              var top := st.hops[|st.hops| - 1];
              var has := node.channels.hasChannelWith;
              (has(top) ==> out.Forward? && out.to == top && out.request.participants == st.participants) &&
              (!has(top) && out.Forward? ==>
                 LastWithChannel(st.participants, has) == Some(out.to) &&
                 out.to in st.participants && has(out.to) &&
                 out.request.participants == WithMember(st.participants, top)) &&
              (out == NothingSent <==> !has(top) && forall p :: p in st.participants ==> !has(p)) &&
              (out.Forward? || out == NothingSent)
    ensures st.hops == [] ==>
              var psbtHex := node.codec.encode(st.psbt);
              (node.wallet.pushToBatch(psbtHex) ==> out == Stored(psbtHex)) &&
              (!node.wallet.pushToBatch(psbtHex) ==> out == Failed(StorageFailed))
  {
    var psbtHex := node.codec.encode(st.psbt);
    if |st.hops| > 0 then
      var nextSigner := st.hops[|st.hops| - 1];
      var hops := st.hops[..|st.hops| - 1];
      if node.channels.hasChannelWith(nextSigner) then
        Forward(nextSigner, Relay(req, st.participants, hops, psbtHex, true))
      else
        match LastWithChannel(st.participants, node.channels.hasChannelWith)
        case None => NothingSent
        case Some(delegate) =>
          Forward(delegate, Relay(req, WithMember(st.participants, nextSigner), hops, psbtHex, true))
    else if node.wallet.pushToBatch(psbtHex) then
      Stored(psbtHex)
    else
      Failed(StorageFailed)
  }

  /** The signing phase: sign when listed, then route along the path. */
  function SignAndRoute(node: NodeContext, ev: ReceivedEvent, st: Locals): (out: Outcome)
    ensures out == Failed(SigningFailed) <==> ev.receiver in st.participants && node.wallet.signPsbt(st.psbt).None?
    ensures out.Failed? ==> out.error == SigningFailed || (out.error == StorageFailed && st.hops == [])
    ensures out.Forward? ==> out.request.sign && st.hops != [] && out.request.hops == st.hops[..|st.hops| - 1]
    ensures out.Stored? ==> st.hops == []
    ensures ev.receiver in st.participants && (out.Forward? || out.Stored?) ==>
              var signed := node.codec.encode(node.wallet.signPsbt(st.psbt).value);
              if out.Forward? then out.request.psbtHex == signed else out.psbtHex == signed
  {
    match SignOwn(node.wallet, ev, st)
    case Err(e) => Failed(e)
    case Ok(signed) => RouteSigned(node, ev.request, signed)
  }

  /** The effect of one received batch message. */
  function Received(node: NodeContext, ev: ReceivedEvent): (out: Outcome)
    ensures out == Failed(MalformedPsbt) <==> node.codec.decode(ev.request.psbtHex).None?
    ensures out == Failed(FundingFailed) <==>
              var decoded := node.codec.decode(ev.request.psbtHex);
              decoded.Some? && JoinsBatch(ev) &&
              node.wallet.addUtxos(decoded.value, ContributedOutputs, UniformAmount(ev.request.uniformAmount),
                                   ev.request.feePerParticipant, false).None?
    ensures out == Failed(NoLastHop) || out == Failed(NoNextPeer) ==> !ev.request.sign
    ensures out.Forward? && !out.request.sign ==> !ev.request.sign
    ensures out == NothingSent ==> ev.request.hops != []
  {
    match node.codec.decode(ev.request.psbtHex)
    case None => Failed(MalformedPsbt)
    case Some(psbt) =>
      match Join(node.wallet, ev, psbt)
      case Err(e) => Failed(e)
      case Ok(joined) =>
        var st := Quota(joined, ev.request.maxParticipants, node.rng);
        if !st.sign then Collect(node, ev, st) else SignAndRoute(node, ev, st)
  }

  /** Copies the pairs into a fresh vector, shuffles it in place and splits it
      back into the two sequences, for the inputs and then for the outputs. */
  method ShufflePsbt(psbt: Psbt, rng: Rng) returns (shuffled: Psbt)
    ensures shuffled == ShuffledPsbt(psbt, rng)
  {
    var pairs := Zip(psbt.inputs, psbt.unsignedTx.input);
    var pairedInputs := new (PsbtInput, TxIn)[|pairs|](i requires 0 <= i < |pairs| => pairs[i]);
    assert pairedInputs[..] == pairs;
    ShuffleInPlace(pairedInputs, rng, 0);
    var inputs := Unzip(pairedInputs[..]);
    var drawn := DrawCount(|pairs|);

    var outPairs := Zip(psbt.outputs, psbt.unsignedTx.output);
    var pairedOutputs := new (PsbtOutput, TxOut)[|outPairs|](i requires 0 <= i < |outPairs| => outPairs[i]);
    assert pairedOutputs[..] == outPairs;
    ShuffleInPlace(pairedOutputs, rng, drawn);
    var outputs := Unzip(pairedOutputs[..]);

    shuffled := psbt.(inputs := inputs.0, unsignedTx := psbt.unsignedTx.(input := inputs.1));
    shuffled := shuffled.(outputs := outputs.0, unsignedTx := shuffled.unsignedTx.(output := outputs.1));
  }

  /** The collecting branch of the handler: choose the next hop with the two
      scans, push the receiver on the path stack, encode and forward. */
  method ForwardCollecting(node: NodeContext, ev: ReceivedEvent, participants: seq<NodeId>, hops: seq<NodeId>, psbt: Psbt)
    returns (out: Outcome)
    ensures out == Collect(node, ev, Locals(participants, hops, psbt, false))
  {
    var next := SelectNextHop(node.channels.openChannels, participants, hops, ev.prev);
    if next.Err? {
      return Failed(next.error);
    }
    var pushed := hops + [ev.receiver];
    var psbtHex := node.codec.encode(psbt);
    if next.value.None? {
      return Failed(NoNextPeer);
    }
    out := Forward(next.value.value, Relay(ev.request, participants, pushed, psbtHex, false));
  }

  /** The signing branch of the handler: sign and leave the list when listed,
      encode, then pop the path stack and send, delegate or store. */
  method SignAndSend(node: NodeContext, ev: ReceivedEvent, participants: seq<NodeId>, hops: seq<NodeId>, psbt: Psbt)
    returns (out: Outcome)
    ensures out == SignAndRoute(node, ev, Locals(participants, hops, psbt, true))
  {
    ghost var st := Locals(participants, hops, psbt, true);
    var req := ev.request;
    var participants, hops, psbt := participants, hops, psbt;
    if ev.receiver in participants {
      var signed := node.wallet.signPsbt(psbt);
      if signed.None? {
        return Failed(SigningFailed);
      }
      psbt := signed.value;
      participants := Without(participants, ev.receiver);
    }
    ghost var own := Locals(participants, hops, psbt, true);
    assert SignOwn(node.wallet, ev, st) == Ok(own);

    var psbtHex := node.codec.encode(psbt);

    if |hops| > 0 {
      var nextSigner := hops[|hops| - 1];
      hops := hops[..|hops| - 1];
      if node.channels.hasChannelWith(nextSigner) {
        out := Forward(nextSigner, Relay(req, participants, hops, psbtHex, true));
      } else {
        var innerParticipants := participants;
        var delegate := FindDelegate(participants, node.channels.hasChannelWith);
        if delegate.Some? {
          if nextSigner !in innerParticipants {
            innerParticipants := innerParticipants + [nextSigner];
          }
          out := Forward(delegate.value, Relay(req, innerParticipants, hops, psbtHex, true));
        } else {
          out := NothingSent;
        }
      }
    } else {
      var ok := node.wallet.pushToBatch(psbtHex);
      if !ok {
        return Failed(StorageFailed);
      }
      out := Stored(psbtHex);
    }
  }

  /** The handler for one received batch message, rebinding its locals step by
      step as the source does. */
  method HandleReceived(node: NodeContext, ev: ReceivedEvent) returns (out: Outcome)
    ensures out == Received(node, ev)
  {
    var req := ev.request;
    var decoded := node.codec.decode(req.psbtHex);
    if decoded.None? {
      return Failed(MalformedPsbt);
    }
    var psbt := decoded.value;
    var hops := req.hops;
    var participants := req.participants;

    // Not a participant yet: join and fund.
    if !req.sign && ev.receiver !in participants {
      participants := participants + [ev.receiver];
      var funded := node.wallet.addUtxos(psbt, ContributedOutputs, UniformAmount(req.uniformAmount), req.feePerParticipant, false);
      if funded.None? {
        return Failed(FundingFailed);
      }
      psbt := funded.value;
    }
    ghost var joined := Locals(participants, hops, psbt, req.sign);
    assert Join(node.wallet, ev, decoded.value) == Ok(joined);

    var sign := req.sign;
    if ParticipantCount(participants) >= req.maxParticipants {
      sign := true;
      psbt := ShufflePsbt(psbt, node.rng);
    }
    assert Locals(participants, hops, psbt, sign) == Quota(joined, req.maxParticipants, node.rng);

    if !sign {
      out := ForwardCollecting(node, ev, participants, hops, psbt);
    } else {
      out := SignAndSend(node, ev, participants, hops, psbt);
    }
  }
}
