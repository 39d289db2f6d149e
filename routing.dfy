/** Peer selection and participant bookkeeping of the batch handler. */
module Routing {
  import opened BatchTypes

  /** A counterparty the collecting-phase scan passes over: it already
      participates, or it is the node on top of the path stack. */
  predicate Skipped(c: NodeId, participants: seq<NodeId>, hops: seq<NodeId>)
  {
    c in participants || (hops != [] && c == hops[|hops| - 1])
  }

  /** The first scan of the collecting phase over the open channels. It
      skips participants, then compares with the top of the path stack, which
      fails when the stack is empty. */
  function PrimaryHop(channels: seq<NodeId>, participants: seq<NodeId>, hops: seq<NodeId>): (r: Result<Option<NodeId>>)
    ensures r == Err(NoLastHop) <==> hops == [] && exists c :: c in channels && c !in participants
    ensures r == Ok(None) <==> forall c :: c in channels ==> Skipped(c, participants, hops)
    ensures r.Err? ==> r.error == NoLastHop
    ensures r.Ok? && r.value.Some? ==>
              r.value.value in channels && r.value.value !in participants &&
              hops != [] && r.value.value != hops[|hops| - 1]
  {
    if channels == [] then Ok(None)
    else
      assert channels[0] in channels;
      assert forall c :: c in channels ==> c == channels[0] || c in channels[1..];
      if channels[0] in participants then PrimaryHop(channels[1..], participants, hops)
      else if hops == [] then Err(NoLastHop)
      else if hops[|hops| - 1] == channels[0] then PrimaryHop(channels[1..], participants, hops)
      else Ok(Some(channels[0]))
  }

  /** A peer the first scan picks is the first counterparty in list order
      that is neither a participant nor the top of the path stack: every
      counterparty before it is skipped. */
  lemma {:induction false} PrimaryHopIsFirstEligible(channels: seq<NodeId>, participants: seq<NodeId>, hops: seq<NodeId>)
    requires PrimaryHop(channels, participants, hops).Ok? && PrimaryHop(channels, participants, hops).value.Some?
    ensures var c := PrimaryHop(channels, participants, hops).value.value;
            exists i :: 0 <= i < |channels| && channels[i] == c &&
              forall j :: 0 <= j < i ==> Skipped(channels[j], participants, hops)
  {
    var c := PrimaryHop(channels, participants, hops).value.value;
    if Skipped(channels[0], participants, hops) {
      var tail := channels[1..];
      PrimaryHopIsFirstEligible(tail, participants, hops);
      var i :| 0 <= i < |tail| && tail[i] == c &&
        forall j :: 0 <= j < i ==> Skipped(tail[j], participants, hops);
      assert channels[i + 1] == c;
      forall j | 0 <= j < i + 1 ensures Skipped(channels[j], participants, hops) {
        if j > 0 { assert channels[j] == tail[j - 1]; }
      }
    } else {
      assert channels[0] == c;
    }
  }

  /** The first counterparty in the list that is not `prev`. */
  function FirstOther(channels: seq<NodeId>, prev: NodeId): (r: Option<NodeId>)
    ensures r.None? <==> forall c :: c in channels ==> c == prev
    ensures r.Some? ==> r.value in channels && r.value != prev
  {
    if channels == [] then None
    else
      assert channels[0] in channels;
      assert forall c :: c in channels <==> c == channels[0] || c in channels[1..];
      if channels[0] == prev then FirstOther(channels[1..], prev)
      else Some(channels[0])
  }

  /** FirstOther picks the earliest counterparty that differs from `prev`. */
  lemma {:induction false} FirstOtherIsFirst(channels: seq<NodeId>, prev: NodeId)
    requires FirstOther(channels, prev).Some?
    ensures exists i :: 0 <= i < |channels| && channels[i] == FirstOther(channels, prev).value &&
              forall j :: 0 <= j < i ==> channels[j] == prev
  {
    if channels[0] == prev {
      var tail := channels[1..];
      FirstOtherIsFirst(tail, prev);
      var i :| 0 <= i < |tail| && tail[i] == FirstOther(tail, prev).value &&
        forall j :: 0 <= j < i ==> tail[j] == prev;
      assert channels[i + 1] == tail[i];
      forall j | 0 <= j < i + 1 ensures channels[j] == prev {
        if j > 0 { assert channels[j] == tail[j - 1]; }
      }
    } else {
      assert channels[0] == FirstOther(channels, prev).value;
    }
  }

  /** The fallback when the first scan finds nothing: the first counterparty
      other than the sender; failing that, the only counterparty when there is
      exactly one channel. */
  function FallbackHop(channels: seq<NodeId>, prev: NodeId): (r: Option<NodeId>)
    ensures r.Some? ==> r.value in channels
    ensures r.None? <==> channels == [] || (|channels| > 1 && forall c :: c in channels ==> c == prev)
    ensures (exists c :: c in channels && c != prev) ==> r == FirstOther(channels, prev) && r.value != prev
    ensures r.Some? && r.value == prev ==> channels == [prev]
  {
    match FirstOther(channels, prev)
    case Some(c) => Some(c)
    case None => if |channels| == 1 then Some(channels[0]) else None
  }

  /** The collecting phase's choice of next hop: the first scan's pick, or the
      fallback when the first scan picks nothing. `Ok(None)` means no peer. */
  function NextHop(channels: seq<NodeId>, participants: seq<NodeId>, hops: seq<NodeId>, prev: NodeId): (r: Result<Option<NodeId>>)
    ensures r.Err? <==> hops == [] && exists c :: c in channels && c !in participants
    ensures r.Err? ==> r.error == NoLastHop
    ensures r == Ok(None) <==>
              (forall c :: c in channels ==> Skipped(c, participants, hops)) &&
              (channels == [] || (|channels| > 1 && forall c :: c in channels ==> c == prev))
    ensures r.Ok? && r.value.Some? ==> r.value.value in channels
    ensures r.Ok? && r.value.Some? ==>
              var c := r.value.value;
              (c !in participants && hops != [] && c != hops[|hops| - 1]) ||
              ((forall d :: d in channels ==> Skipped(d, participants, hops)) && (c != prev || channels == [prev]))
  {
    match PrimaryHop(channels, participants, hops)
    case Err(e) => Err(e)
    case Ok(Some(c)) => Ok(Some(c))
    case Ok(None) => Ok(FallbackHop(channels, prev))
  }

  /** The two scans over the open channels, with the source's
      `continue`/`break` control flow. */
  method SelectNextHop(channels: seq<NodeId>, participants: seq<NodeId>, hops: seq<NodeId>, prev: NodeId)
    returns (r: Result<Option<NodeId>>)
    ensures r == NextHop(channels, participants, hops, prev)
  {
    var next: Option<NodeId> := None;
    for i := 0 to |channels|
      invariant PrimaryHop(channels, participants, hops) == PrimaryHop(channels[i..], participants, hops)
      invariant next == None
    {
      assert channels[i..][1..] == channels[i + 1..];
      if channels[i] in participants {
        continue;
      }
      if hops == [] {
        return Err(NoLastHop);
      }
      if hops[|hops| - 1] == channels[i] {
        continue;
      }
      next := Some(channels[i]);
      break;
    }

    if next.None? {
      if |channels| == 1 {
        next := Some(channels[0]);
      }
      for j := 0 to |channels|
        invariant FirstOther(channels, prev) == FirstOther(channels[j..], prev)
        invariant next == if |channels| == 1 then Some(channels[0]) else None
      {
        assert channels[j..][1..] == channels[j + 1..];
        if channels[j] == prev {
          continue;
        }
        next := Some(channels[j]);
        break;
      }
    }
    return Ok(next);
  }

  /** `participants.retain(|key| *key != x)`: every occurrence of x removed. */
  function Without(s: seq<NodeId>, x: NodeId): (r: seq<NodeId>)
    ensures x !in r
    ensures forall y :: y != x ==> multiset(r)[y] == multiset(s)[y]
    ensures x !in s ==> r == s
  {
    if s == [] then []
    else
      assert s == [s[0]] + s[1..];
      if s[0] == x then Without(s[1..], x)
      else [s[0]] + Without(s[1..], x)
  }

  /** Removal distributes over concatenation, so what remains keeps its
      relative order. */
  lemma {:induction false} WithoutConcat(a: seq<NodeId>, b: seq<NodeId>, x: NodeId)
    ensures Without(a + b, x) == Without(a, x) + Without(b, x)
  {
    if a != [] {
      assert (a + b)[1..] == a[1..] + b;
      WithoutConcat(a[1..], b, x);
    } else {
      assert a + b == b;
    }
  }

  /** `inner_participants` in the delegation branch: x added at the end when
      absent. */
  function WithMember(s: seq<NodeId>, x: NodeId): (r: seq<NodeId>)
    ensures x in r
    ensures x in s ==> r == s
    ensures x !in s ==> |r| == |s| + 1 && r[..|s|] == s
  {
    if x in s then s else s + [x]
  }

  /** The last participant, scanning from the end, with which a channel exists. */
  function LastWithChannel(participants: seq<NodeId>, hasChannelWith: NodeId -> bool): (r: Option<NodeId>)
    ensures r.None? <==> forall p :: p in participants ==> !hasChannelWith(p)
    ensures r.Some? ==>
              exists i :: 0 <= i < |participants| && participants[i] == r.value && hasChannelWith(r.value) &&
                forall j :: i < j < |participants| ==> !hasChannelWith(participants[j])
  {
    if participants == [] then None
    else
      var n := |participants| - 1;
      if hasChannelWith(participants[n]) then Some(participants[n])
      else
        var r := LastWithChannel(participants[..n], hasChannelWith);
        assert forall p :: p in participants ==> p in participants[..n] || p == participants[n] by {
          assert participants == participants[..n] + [participants[n]];
        }
        r
  }

  /** The reverse scan over the participants for a peer to delegate to. */
  method FindDelegate(participants: seq<NodeId>, hasChannelWith: NodeId -> bool) returns (delegate: Option<NodeId>)
    ensures delegate == LastWithChannel(participants, hasChannelWith)
  {
    var i := |participants|;
    while i > 0
      invariant 0 <= i <= |participants|
      invariant LastWithChannel(participants, hasChannelWith) == LastWithChannel(participants[..i], hasChannelWith)
    {
      var nodeId := participants[i - 1];
      assert participants[..i][i - 1] == nodeId;
      if hasChannelWith(nodeId) {
        return Some(nodeId);
      }
      assert participants[..i][..i - 1] == participants[..i - 1];
      i := i - 1;
    }
    return None;
  }
}
