/** A three-party batch with a quota of three, nodes A, B and C on a line
    A - B - C, traced through the handler with a wallet and a codec that
    always succeed. */
module Scenario {
  import opened BatchTypes
  import opened Batch

  const A: NodeId := [0x0a]
  const B: NodeId := [0x0b]
  const C: NodeId := [0x0c]

  /** A PSBT with no inputs and no outputs; the wallet below adds none, so
      the shuffle leaves it as it is. */
  const Blank: Psbt := Psbt(Transaction(2, 0, [], []), map[], [], [])

  const Hex: string := "70736274ff"

  lemma Distinct()
    ensures A != B && B != C && A != C
  {
    assert A[0] != B[0] && B[0] != C[0] && A[0] != C[0];
  }

  function Context(peers: seq<NodeId>): NodeContext
  {
    NodeContext(
      ChannelManager(peers, n => n in peers),
      Wallet((p, n, a, f, b) => Some(p), p => Some(p), h => true),
      Codec(h => Some(Blank), p => Hex),
      k => 0)
  }

  function Request(participants: seq<NodeId>, hops: seq<NodeId>, sign: bool): BatchRequest
  {
    BatchRequest(0, 1000, 3, participants, hops, Hex, sign)
  }

  /** B receives A's opening message with an empty path stack: the first scan
      reaches C, which is not a participant, and reads the top of the empty
      path stack, so the handler fails. */
  lemma OpeningWithEmptyPathFails()
    ensures Received(Context([A, C]), ReceivedEvent(B, A, Request([A], [], false))) == Failed(NoLastHop)
  {
    Distinct();
    var st := Locals([A, B], [], Blank, false);
    assert [A] + [B] == [A, B];
    assert Join(Context([A, C]).wallet, ReceivedEvent(B, A, Request([A], [], false)), Blank) == Ok(st);
    assert !QuotaMet(st.participants, 3);
    assert A in st.participants && C !in st.participants;
  }

  /** B receives A's opening message with A on the path stack: B joins (two
      of three participants), skips A and forwards to C, pushing itself. */
  lemma SecondHopForwardsToC()
    ensures Received(Context([A, C]), ReceivedEvent(B, A, Request([A], [A], false)))
            == Forward(C, Request([A, B], [A, B], false))
  {
    Distinct();
    var st := Locals([A, B], [A], Blank, false);
    assert [A] + [B] == [A, B];
    assert Join(Context([A, C]).wallet, ReceivedEvent(B, A, Request([A], [A], false)), Blank) == Ok(st);
    assert !QuotaMet(st.participants, 3);
    assert [A, C][1..] == [C];
    assert Routing.PrimaryHop([A, C], [A, B], [A]) == Ok(Some(C));
    assert [A] + [B] == [A, B];
  }

  /** C joins as the third participant: the quota is met, C shuffles, signs,
      leaves the participant list, pops B and sends the message back to B in
      the signing phase. */
  lemma QuotaReachedAtC()
    ensures Received(Context([B]), ReceivedEvent(C, B, Request([A, B], [A, B], false)))
            == Forward(B, Request([A, B], [A], true))
  {
    var ev := ReceivedEvent(C, B, Request([A, B], [A, B], false));
    Distinct();
    var st := Locals([A, B, C], [A, B], Blank, false);
    assert [A, B] + [C] == [A, B, C];
    assert Join(Context([B]).wallet, ev, Blank) == Ok(st);
    assert QuotaMet(st.participants, 3);
    assert ShuffledPsbt(Blank, k => 0) == Blank;
    assert Routing.Without([A, B, C], C) == [A, B] by {
      assert [A, B, C][1..] == [B, C] && [B, C][1..] == [C] && [C][1..] == [];
      assert Routing.Without([C], C) == [];
      assert Routing.Without([B, C], C) == [B];
    }
  }

  /** B signs and leaves the list, pops A and sends the message back to A. */
  lemma BackAtB()
    ensures Received(Context([A, C]), ReceivedEvent(B, C, Request([A, B], [A], true)))
            == Forward(A, Request([A], [], true))
  {
    Distinct();
    assert !QuotaMet([A, B], 3);
    assert Routing.Without([A, B], B) == [A] by {
      assert [A, B][1..] == [B] && [B][1..] == [];
    }
  }

  /** A signs with an empty path stack and stores the finished PSBT. */
  lemma FinishedAtA()
    ensures Received(Context([B]), ReceivedEvent(A, B, Request([A], [], true))) == Stored(Hex)
  {
    Distinct();
    assert !QuotaMet([A], 3);
    assert Routing.Without([A], A) == [];
  }

  /** Had C popped B's path with A missing from it, B would store the PSBT
      while A is still listed as owing a signature: storing depends on the
      path stack alone. */
  lemma StoredWhileASigns()
    ensures Received(Context([A, C]), ReceivedEvent(B, C, Request([A, B], [], true))) == Stored(Hex)
  {
    Distinct();
    assert !QuotaMet([A, B], 3);
    assert Routing.Without([A, B], B) == [A] by {
      assert [A, B][1..] == [B] && [B][1..] == [];
    }
  }
}
