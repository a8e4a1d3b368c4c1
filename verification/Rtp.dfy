/**
 RTP numbering on the caller's track (internal/calling/audio.go, bridge.go, transfer.go, ivr.go).

 One call is heard through a chain of sources: the IVR player, which also plays the hold music,
 a bridge that forwards the agent's packets, a hold player, another bridge, the post-transfer
 player. The receiver drops packets whose numbers look old, so each source must carry on from
 the one before. Sequence numbers are 16 bits wide and timestamps 32 (section 5.1 of RFC 3550).
 */
module Rtp {

  type Seq16 = x: int | 0 <= x < 0x1_0000
  type Ts32 = x: int | 0 <= x < 0x1_0000_0000

  function Wrap16(x: int): Seq16 { x % 0x1_0000 }
  function Wrap32(x: int): Ts32 { x % 0x1_0000_0000 }

  /** A position in the stream: the numbers of one packet. */
  datatype Mark = Mark(number: Seq16, ts: Ts32)

  /** `d` packets and `t` samples further on. */
  function Ahead(m: Mark, d: int, t: int): Mark { Mark(Wrap16(m.number + d), Wrap32(m.ts + t)) }

  /** `n` frames of 20 ms further on. */
  function Frames(m: Mark, n: int): Mark { Ahead(m, n, 960 * n) }

  lemma AheadAhead(m: Mark, d: int, t: int, d': int, t': int)
    ensures Ahead(Ahead(m, d, t), d', t') == Ahead(m, d + d', t + t')
  {
  }

  // ----- The player -----

  function Burst(m: Mark, n: nat): seq<Mark> { seq(n, i requires 0 <= i < n => Frames(m, i)) }

  lemma BurstEmpty(m: Mark)
    ensures Burst(m, 0) == [] && Frames(m, 0) == m
  {
  }

  /** Consecutive packets from `m` on, 960 samples apart, in 16-bit and 32-bit arithmetic. */
  predicate CountOn(m: Mark, sent: seq<Mark>) {
    forall i :: 0 <= i < |sent| ==> sent[i] == Mark((m.number + i) % 65536, (m.ts + 960 * i) % 4294967296)
  }

  lemma BurstCounts(m: Mark, n: nat)
    ensures |Burst(m, n)| == n && CountOn(m, Burst(m, n))
    ensures Frames(m, n) == Mark((m.number + n) % 65536, (m.ts + 960 * n) % 4294967296)
  {
  }

  lemma BurstSnoc(m: Mark, n: nat)
    ensures Burst(m, n + 1) == Burst(m, n) + [Frames(m, n)]
    ensures Frames(Frames(m, n), 1) == Frames(m, n + 1)
  {
    AheadAhead(m, n, 960 * n, 1, 960);
    hide Ahead;
  }

  class AudioPlayer {
    var sequenceNumber: Seq16
    var timestamp: Ts32

    function Next(): Mark
      reads this
    {
      Mark(sequenceNumber, timestamp)
    }

    constructor ()
      ensures Next() == Mark(0, 0)
    {
      sequenceNumber, timestamp := 0, 0;
    }

    method SetSequence(last: Mark)
      modifies this
      ensures Next() == Frames(last, 1)
    {
      sequenceNumber := Wrap16(last.number + 1);
      timestamp := Wrap32(last.ts + 960);
    }

    method Sequence() returns (m: Mark)
      ensures m == Next()
    {
      return Mark(sequenceNumber, timestamp);
    }

    /**
     PlayFile and PlaySilence. `ticks` says how each turn of the loop goes: true for a packet
     written, false for a stop, a deadline or a failed write, any of which ends it.
     */
    method Play(ticks: seq<bool>) returns (sent: seq<Mark>)
      modifies this
      ensures |sent| <= |ticks| && (forall i :: 0 <= i < |sent| ==> ticks[i])
      ensures |sent| < |ticks| ==> !ticks[|sent|]
      ensures sent == Burst(old(Next()), |sent|)
      ensures Next() == Frames(old(Next()), |sent|)
      ensures CountOn(old(Next()), sent)
      ensures Next() == Mark((old(Next()).number + |sent|) % 65536, (old(Next()).ts + 960 * |sent|) % 4294967296)
    {
      hide Frames, Burst, CountOn;
      sent := [];
      BurstEmpty(Next());
      for i := 0 to |ticks|
        invariant |sent| == i && (forall k :: 0 <= k < i ==> ticks[k])
        invariant sent == Burst(old(Next()), i)
        invariant Next() == Frames(old(Next()), i)
      {
        if !ticks[i] {
          BurstCounts(old(Next()), i);
          return;
        }
        sent := sent + [Mark(sequenceNumber, timestamp)];
        Advance();
        BurstSnoc(old(Next()), i);
      }
      BurstCounts(old(Next()), |ticks|);
    }

    method Advance()
      modifies this
      ensures Next() == Frames(old(Next()), 1)
    {
      sequenceNumber := Wrap16(sequenceNumber + 1);
      timestamp := Wrap32(timestamp + 960);
    }
  }

  // ----- The bridge, agent to caller -----

  datatype AgentPacket = Good(mark: Mark) | Malformed

  datatype Sent = Rtp(mark: Mark) | Raw

  datatype Numbering = Numbering(offset: Mark, first: bool, base: Mark, last: Mark)

  const FreshNumbering := Numbering(Mark(0, 0), false, Mark(0, 0), Mark(0, 0))

  function Seeded(offset: Mark): Numbering { FreshNumbering.(offset := offset, first := true) }

  /** The agent's number, moved so that the base lands one frame after the offset. */
  function Rewritten(n: Numbering, m: Mark): Mark {
    Mark(Wrap16(n.offset.number + (m.number - n.base.number) + 1), Wrap32(n.offset.ts + (m.ts - n.base.ts) + 960))
  }

  /** How a packet's way out goes: written, the write fails, or the rewritten packet cannot be marshalled. */
  datatype Delivery = Written | WriteFails | MarshalFails

  datatype Incoming = Incoming(packet: AgentPacket, delivery: Delivery)

  /** The numbering afterwards, what was written, and whether a failed write ended the loop. */
  datatype Outgoing = Outgoing(numbering: Numbering, sent: seq<Sent>, ended: bool)

  /**
   forward's treatment of one packet. A rewritten packet is remembered as the last one before
   it is written, an unseeded one only after.
   */
  function ForwardOne(n: Numbering, x: Incoming): Outgoing {
    var fails := x.delivery.WriteFails?;
    match x.packet
    case Malformed => Outgoing(n, if fails then [] else [Raw], fails)
    case Good(m) =>
      var based := if n.first then n.(base := m, first := false) else n;
      if based.offset.number > 0 then
        var out := Rewritten(based, m);
        Outgoing(based.(last := out), if x.delivery.Written? then [Rtp(out)] else [], fails)
      else if fails then Outgoing(based, [], true)
      else Outgoing(based.(last := m), [Rtp(m)], false)
  }

  function ForwardAll(n: Numbering, input: seq<Incoming>): Outgoing {
    if input == [] then Outgoing(n, [], false)
    else
      var before := ForwardAll(n, input[..|input| - 1]);
      if before.ended then before
      else
        var one := ForwardOne(before.numbering, input[|input| - 1]);
        one.(sent := before.sent + one.sent)
  }

  class AudioBridge {
    var seqOffset: Seq16
    var tsOffset: Ts32
    var firstAgentSeq: bool
    var agentBaseSeq: Seq16
    var agentBaseTS: Ts32
    var lastCallerSeq: Seq16
    var lastCallerTS: Ts32

    function View(): Numbering
      reads this
    {
      Numbering(Mark(seqOffset, tsOffset), firstAgentSeq, Mark(agentBaseSeq, agentBaseTS), Mark(lastCallerSeq, lastCallerTS))
    }

    constructor ()
      ensures View() == FreshNumbering
    {
      seqOffset, tsOffset, firstAgentSeq := 0, 0, false;
      agentBaseSeq, agentBaseTS, lastCallerSeq, lastCallerTS := 0, 0, 0, 0;
    }

    method SeedSequence(m: Mark)
      modifies this
      ensures View() == old(View()).(offset := m, first := true)
    {
      seqOffset := m.number;
      tsOffset := m.ts;
      firstAgentSeq := true;
    }

    /** One turn of forward's loop. */
    method ForwardPacket(x: Incoming) returns (sent: seq<Sent>, ended: bool)
      modifies this
      ensures Outgoing(View(), sent, ended) == ForwardOne(old(View()), x)
    {
      var p := x.packet;
      if firstAgentSeq && p.Good? {
        agentBaseSeq := p.mark.number;
        agentBaseTS := p.mark.ts;
        firstAgentSeq := false;
      }
      if seqOffset > 0 && p.Good? {
        var sq := Wrap16(seqOffset + (p.mark.number - agentBaseSeq) + 1);
        var ts := Wrap32(tsOffset + (p.mark.ts - agentBaseTS) + 960);
        lastCallerSeq := sq;
        lastCallerTS := ts;
        if x.delivery.MarshalFails? {
          return [], false;
        }
        if x.delivery.WriteFails? {
          return [], true;
        }
        return [Rtp(Mark(sq, ts))], false;
      }
      if x.delivery.WriteFails? {
        return [], true;
      }
      if p.Good? {
        lastCallerSeq := p.mark.number;
        lastCallerTS := p.mark.ts;
        return [Rtp(p.mark)], false;
      }
      return [Raw], false;
    }

    /** forward, for the packets read until it is stopped or the track cannot be read. */
    method Forward(input: seq<Incoming>) returns (sent: seq<Sent>)
      modifies this
      ensures View() == ForwardAll(old(View()), input).numbering
      ensures sent == ForwardAll(old(View()), input).sent
    {
      sent := [];
      var ended := false;
      for i := 0 to |input|
        invariant !ended
        invariant Outgoing(View(), sent, ended) == ForwardAll(old(View()), input[..i])
      {
        assert input[..i + 1][..i] == input[..i];
        var out;
        out, ended := ForwardPacket(input[i]);
        sent := sent + out;
        if ended {
          EndedStays(old(View()), input, i + 1);
          return;
        }
      }
      assert input[..|input|] == input;
    }
  }

  lemma {:induction false} EndedStays(n: Numbering, input: seq<Incoming>, k: nat)
    requires k <= |input| && ForwardAll(n, input[..k]).ended
    ensures ForwardAll(n, input) == ForwardAll(n, input[..k])
    decreases |input|
  {
    if k == |input| {
      assert input[..k] == input;
    } else {
      assert input[..|input| - 1][..k] == input[..k];
      EndedStays(n, input[..|input| - 1], k);
    }
  }

  // ----- Inside one seeded bridge -----

  function GoodAll(ms: seq<Mark>): seq<Incoming> { seq(|ms|, i requires 0 <= i < |ms| => Incoming(Good(ms[i]), Written)) }

  function Shifted(offset: Mark, ms: seq<Mark>): seq<Mark>
    requires ms != []
  {
    seq(|ms|, i requires 0 <= i < |ms| => Frames(Ahead(offset, ms[i].number - ms[0].number, ms[i].ts - ms[0].ts), 1))
  }

  function RtpAll(ms: seq<Mark>): seq<Sent> { seq(|ms|, i requires 0 <= i < |ms| => Rtp(ms[i])) }

  /**
   A seeded bridge moves the agent's stream as a whole: the first packet lands one frame after
   the seed and every later one keeps its distance from the first.
   */
  lemma SeededStream(offset: Mark, ms: seq<Mark>)
    requires offset.number > 0 && ms != []
    ensures var all := ForwardAll(Seeded(offset), GoodAll(ms));
            && |all.sent| == |ms| && all.sent[0] == Rtp(Mark((offset.number + 1) % 65536, (offset.ts + 960) % 4294967296))
            && forall i :: 0 <= i < |ms| ==> all.sent[i] == Rtp(FromSeed(offset, ms[0], ms[i]))
  {
    SeededBridge(offset, ms);
    hide ForwardAll, Shifted, GoodAll, Seeded;
    forall i | 0 <= i < |ms| ensures |Shifted(offset, ms)| == |ms| && Shifted(offset, ms)[i] == FromSeed(offset, ms[0], ms[i]) {
      ShiftedNumbers(offset, ms, i);
    }
    assert FromSeed(offset, ms[0], ms[0]) == Mark((offset.number + 1) % 65536, (offset.ts + 960) % 4294967296);
  }

  /** One frame after the seed, and as far again as the agent's packet is from its first. */
  function FromSeed(offset: Mark, first: Mark, m: Mark): Mark {
    Mark((offset.number + 1 + m.number - first.number) % 65536, (offset.ts + 960 + m.ts - first.ts) % 4294967296)
  }

  lemma ShiftedNumbers(offset: Mark, ms: seq<Mark>, i: nat)
    requires i < |ms|
    ensures |Shifted(offset, ms)| == |ms| && Shifted(offset, ms)[i] == FromSeed(offset, ms[0], ms[i])
  {
    hide Ahead;
    ShiftOne(offset, ms[i].number - ms[0].number, ms[i].ts - ms[0].ts);
  }

  lemma ShiftOne(offset: Mark, d: int, t: int)
    ensures Frames(Ahead(offset, d, t), 1) == Mark((offset.number + 1 + d) % 65536, (offset.ts + 960 + t) % 4294967296)
  {
    AheadAhead(offset, d, t, 1, 960);
  }

  lemma {:induction false} SeededBridge(offset: Mark, ms: seq<Mark>)
    requires offset.number > 0 && ms != []
    ensures ForwardAll(Seeded(offset), GoodAll(ms))
            == Outgoing(Numbering(offset, false, ms[0], Shifted(offset, ms)[|ms| - 1]), RtpAll(Shifted(offset, ms)), false)
  {
    hide Ahead, Frames, Rewritten;
    var k := |ms| - 1;
    assert GoodAll(ms)[..k] == GoodAll(ms[..k]);
    if k > 0 {
      SeededBridge(offset, ms[..k]);
      RewrittenShifts(offset, ms[0], Shifted(offset, ms[..k])[k - 1], ms[k]);
      assert Shifted(offset, ms)[..k] == Shifted(offset, ms[..k]);
      assert RtpAll(Shifted(offset, ms)) == RtpAll(Shifted(offset, ms[..k])) + [Rtp(Shifted(offset, ms)[k])];
    } else {
      RewrittenShifts(offset, ms[0], Mark(0, 0), ms[0]);
      assert ForwardAll(Seeded(offset), GoodAll(ms)[..k]) == Outgoing(Seeded(offset), [], false);
    }
  }

  lemma RewrittenShifts(offset: Mark, base: Mark, last: Mark, m: Mark)
    ensures Rewritten(Numbering(offset, false, base, last), m)
            == Frames(Ahead(offset, m.number - base.number, m.ts - base.ts), 1)
  {
    hide Wrap16, Wrap32;
    var d, t := m.number - base.number, m.ts - base.ts;
    AheadAhead(offset, d, t, 1, 960);
    assert offset.number + d + 1 == offset.number + (d + 1) && offset.ts + t + 960 == offset.ts + (t + 960);
  }

  /** A bridge that was not seeded passes the agent's numbers on as they are and ends at the last of them. */
  lemma {:induction false} UnseededStream(ms: seq<Mark>)
    requires ms != []
    ensures ForwardAll(FreshNumbering, GoodAll(ms))
            == Outgoing(Numbering(Mark(0, 0), false, Mark(0, 0), ms[|ms| - 1]), RtpAll(ms), false)
  {
    var k := |ms| - 1;
    assert GoodAll(ms)[..k] == GoodAll(ms[..k]);
    if k > 0 {
      UnseededStream(ms[..k]);
      assert RtpAll(ms) == RtpAll(ms[..k]) + [Rtp(ms[k])];
    } else {
      assert ForwardAll(FreshNumbering, GoodAll(ms)[..k]) == Outgoing(FreshNumbering, [], false);
    }
  }

  /**
   What goes wrong with one packet leaves the others in place: a malformed one is passed on and
   not counted, one that cannot be marshalled is missing but keeps its number, and a failed
   write ends the loop with nothing more sent.
   */
  lemma TroubleKeepsPlace(n: Numbering, input: seq<Incoming>, x: Incoming)
    requires !ForwardAll(n, input).ended
    ensures var before, after := ForwardAll(n, input), ForwardAll(n, input + [x]);
            && (x.packet.Malformed? && !x.delivery.WriteFails? ==> after == Outgoing(before.numbering, before.sent + [Raw], false))
            && (x.packet.Good? && x.delivery.MarshalFails? && before.numbering.offset.number > 0 ==>
                  after == Outgoing(ForwardAll(n, input + [x.(delivery := Written)]).numbering, before.sent, false))
            && (x.delivery.WriteFails? ==> after.sent == before.sent && after.ended)
            && |after.sent| <= |before.sent| + 1
  {
    var now := ForwardAll(n, input);
    ForwardSnoc(n, input, x);
    ForwardSnoc(n, input, x.(delivery := Written));
    TroubleOne(now.numbering, x);
    assert now.sent + [] == now.sent;
    hide ForwardAll, ForwardOne;
  }

  lemma ForwardSnoc(n: Numbering, input: seq<Incoming>, x: Incoming)
    requires !ForwardAll(n, input).ended
    ensures var before := ForwardAll(n, input);
            var one := ForwardOne(before.numbering, x);
            ForwardAll(n, input + [x]) == Outgoing(one.numbering, before.sent + one.sent, one.ended)
  {
    assert (input + [x])[..|input|] == input;
    hide ForwardOne;
  }

  lemma TroubleOne(n: Numbering, x: Incoming)
    ensures var after := ForwardOne(n, x);
            && (x.packet.Malformed? && !x.delivery.WriteFails? ==> after == Outgoing(n, [Raw], false))
            && (x.packet.Good? && x.delivery.MarshalFails? && n.offset.number > 0 ==>
                  after == Outgoing(ForwardOne(n, x.(delivery := Written)).numbering, [], false))
            && (x.delivery.WriteFails? ==> after.sent == [] && after.ended)
            && |after.sent| <= 1
  {
    hide Rewritten;
  }

  // ----- Hand-offs -----

  /** Where a player made after `last` starts: one frame on, unless the number is exactly 0. */
  function TakeOver(last: Mark): Mark { if last.number > 0 then Frames(last, 1) else Mark(0, 0) }

  /** How a bridge is set up after a player that would send `next`. */
  function BridgeAfter(next: Mark): Numbering { if next.number > 0 then Seeded(next) else FreshNumbering }

  /** HoldCall and executeTransfer make their player this way. */
  method MakePlayer(last: Mark) returns (player: AudioPlayer)
    ensures fresh(player) && player.Next() == TakeOver(last)
  {
    player := new AudioPlayer();
    if last.number > 0 {
      player.SetSequence(last);
    }
  }

  /** InitiateAgentTransfer: a new player in any case, moved on only if there is a bridge to ask. */
  method MakeTransferPlayer(bridge: AudioBridge?) returns (player: AudioPlayer)
    ensures fresh(player)
    ensures player.Next() == if bridge == null then Mark(0, 0) else TakeOver(bridge.View().last)
  {
    player := new AudioPlayer();
    if bridge != null && bridge.lastCallerSeq > 0 {
      player.SetSequence(Mark(bridge.lastCallerSeq, bridge.lastCallerTS));
    }
  }

  /** completeTransferConnection: the bridge takes over from the stopped hold player. */
  method MakeBridge(holdPlayer: AudioPlayer) returns (bridge: AudioBridge)
    ensures fresh(bridge) && bridge.View() == BridgeAfter(holdPlayer.Next())
  {
    var next := holdPlayer.Sequence();
    bridge := new AudioBridge();
    if next.number > 0 {
      bridge.SeedSequence(next);
    }
  }

  // ----- The chain of one call -----

  /** Who writes to the caller's track, and in which part of the call. */
  datatype Source =
    | Ivr(next: Mark)      // the IVR player
    | Ringing(next: Mark)  // the hold player, a transfer waiting for an agent
    | Talking(last: Mark)  // a bridge
    | Held(next: Mark)     // the hold player, an agent connected and the call on hold

  /**
   What a packet is due to: a source's own counting, `skipped` numbers being lost in hand-offs
   just before it, or the agent's stream, with the agent's own distance from its last packet.
   */
  datatype Origin = Frame(skipped: nat) | Agent(packets: int, samples: int)

  datatype Heard = Heard(mark: Mark, origin: Origin)

  /**
   `saved` is LastRTPSeq and LastRTPTimestamp; `skips` counts player hand-offs since the last
   packet; `strays` are players that were replaced without being stopped and go on sending.
   */
  datatype Call = Call(source: Source, saved: Mark, heard: seq<Heard>, skips: nat, strays: seq<Mark>)

  datatype Op =
    | Play(n: nat)              // the current player sends n packets
    | Stray(k: nat, n: nat)     // a player that nobody stopped sends n packets
    | Transfer                  // the IVR asks for an agent; its player plays on
    | Connect(agent: seq<Mark>) // an agent is bridged in and sends these packets
    | HoldCall
    | AgentTransfer             // InitiateAgentTransfer
    | End(late: nat)            // the transfer ends, answered or not, and the IVR goes on; a hold
                                // player may send `late` packets between the reading of its
                                // position and its stop

  function BurstHeard(next: Mark, n: nat, skips: nat): seq<Heard> {
    seq(n, i requires 0 <= i < n => Heard(Frames(next, i), Frame(if i == 0 then skips else 0)))
  }

  function BridgeHeard(sent: seq<Sent>, agent: seq<Mark>, skips: nat): seq<Heard>
    requires |sent| == |agent| && forall i :: 0 <= i < |sent| ==> sent[i].Rtp?
  {
    seq(|sent|, i requires 0 <= i < |sent| =>
      Heard(sent[i].mark,
            if i == 0 then Frame(skips + 1)
            else Agent(agent[i].number - agent[i - 1].number, agent[i].ts - agent[i - 1].ts)))
  }

  lemma {:induction false} ForwardShape(n: Numbering, ms: seq<Mark>)
    ensures var all := ForwardAll(n, GoodAll(ms));
            !all.ended && |all.sent| == |ms| && forall i :: 0 <= i < |all.sent| ==> all.sent[i].Rtp?
  {
    if ms != [] {
      var k := |ms| - 1;
      assert GoodAll(ms)[..k] == GoodAll(ms[..k]);
      ForwardShape(n, ms[..k]);
    }
  }

  function PlayOn(c: Call, n: nat): Source {
    match c.source
    case Ivr(next) => Ivr(Frames(next, n))
    case Ringing(next) => Ringing(Frames(next, n))
    case Held(next) => Held(Frames(next, n))
    case Talking(_) => c.source
  }

  function Step(c: Call, op: Op): Call {
    match op
    case Play(n) =>
      if c.source.Talking? then c
      else
        c.(source := PlayOn(c, n), heard := c.heard + BurstHeard(c.source.next, n, c.skips),
           skips := if n == 0 then c.skips else 0)
    case Stray(k, n) =>
      if k < |c.strays| then
        c.(strays := c.strays[k := Frames(c.strays[k], n)], heard := c.heard + BurstHeard(c.strays[k], n, 0))
      else c
    case Transfer => if c.source.Ivr? then c.(source := Ringing(c.source.next)) else c
    case Connect(agent) =>
      if c.source.Ringing? then
        ForwardShape(BridgeAfter(c.source.next), agent);
        var all := ForwardAll(BridgeAfter(c.source.next), GoodAll(agent));
        c.(source := Talking(all.numbering.last), heard := c.heard + BridgeHeard(all.sent, agent, c.skips), skips := 0)
      else c
    case HoldCall => if c.source.Talking? then c.(source := Held(TakeOver(c.source.last))) else c
    case AgentTransfer =>
      if c.source.Ringing? then c // already being transferred
      else if c.source.Talking? then c.(source := Ringing(TakeOver(c.source.last)))
      else c.(source := Ringing(Mark(0, 0)), strays := c.strays + [c.source.next])
    case End(late) =>
      match c.source
      case Ivr(_) => c // no transfer to end
      case Talking(last) =>
        var saved := if last.number > 0 then last else c.saved;
        c.(source := Ivr(TakeOver(saved)), saved := saved)
      case Ringing(next) => EndPlayer(c, next, late)
      case Held(next) => EndPlayer(c, next, late)
  }

  /** The position is read, the old player goes on for `late` packets, the new one starts from the position. */
  function EndPlayer(c: Call, next: Mark, late: nat): Call {
    c.(source := Ivr(TakeOver(next)), saved := next,
       heard := c.heard + BurstHeard(next, late, c.skips),
       skips := if late == 0 then c.skips + 1 else 0)
  }

  /** A player that takes over at `next` is in place although `late` packets went out after the reading. */
  predicate Resumes(next: Mark, late: nat) {
    if late == 0 then next.number != 0 else TakeOver(next) == Frames(next, late)
  }

  /** Short of a full turn of the numbers, that is: the number read is not 0 and at most one packet was late. */
  lemma ResumesIff(next: Mark, late: nat)
    requires late < 0x1_0000
    ensures Resumes(next, late) <==> next.number != 0 && late <= 1
  {
  }

  const Dialled := Call(Ivr(Mark(0, 0)), Mark(0, 0), [], 0, [])

  function Run(ops: seq<Op>): Call {
    if ops == [] then Dialled else Step(Run(ops[..|ops| - 1]), ops[|ops| - 1])
  }

  /**
   The value handed over is not 0, a bridge forwards at least one packet, an agent transfer
   starts from a bridge (or is refused), not from a held call or from the IVR, and at most one
   packet is late when a hold player is ended.
   */
  predicate Smooth(c: Call, op: Op) {
    match op
    case Play(_) => true
    case Stray(_, _) => true
    case Transfer => true
    case Connect(agent) => c.source.Ringing? ==> c.source.next.number != 0 && agent != []
    case HoldCall => c.source.Talking? ==> c.source.last.number != 0
    case AgentTransfer => c.source.Ringing? || (c.source.Talking? && c.source.last.number != 0)
    case End(late) =>
      match c.source
      case Ivr(_) => true
      case Talking(last) => last.number != 0
      case Ringing(next) => Resumes(next, late)
      case Held(next) => Resumes(next, late)
  }

  predicate AllSmooth(ops: seq<Op>) {
    ops == [] || (AllSmooth(ops[..|ops| - 1]) && Smooth(Run(ops[..|ops| - 1]), ops[|ops| - 1]))
  }

  /** How a packet must follow the one before it. */
  predicate Follows(before: Mark, h: Heard) {
    h.mark == match h.origin
              case Frame(skipped) => Frames(before, 1 + skipped)
              case Agent(packets, samples) => Ahead(before, packets, samples)
  }

  predicate Linked(heard: seq<Heard>) {
    forall i :: 0 < i < |heard| ==> Follows(heard[i - 1].mark, heard[i])
  }

  lemma LinkedAppend(x: seq<Heard>, y: seq<Heard>)
    requires Linked(x) && Linked(y) && (x != [] && y != [] ==> Follows(x[|x| - 1].mark, y[0]))
    ensures Linked(x + y)
  {
    hide Follows;
    var z := x + y;
    forall i | 0 < i < |z| ensures Follows(z[i - 1].mark, z[i]) {
      if i < |x| {
        assert z[i - 1] == x[i - 1] && z[i] == x[i];
      } else if i > |x| {
        assert z[i - 1] == y[i - 1 - |x|] && z[i] == y[i - |x|];
      }
    }
  }

  lemma BurstLinked(next: Mark, n: nat, skips: nat)
    ensures Linked(BurstHeard(next, n, skips))
  {
    var out := BurstHeard(next, n, skips);
    hide Frames;
    forall i | 0 < i < n ensures Follows(out[i - 1].mark, out[i]) {
      FramesFrames(next, i - 1, 1);
    }
  }

  lemma BridgeLinked(offset: Mark, agent: seq<Mark>, skips: nat)
    requires agent != []
    ensures Linked(BridgeHeard(RtpAll(Shifted(offset, agent)), agent, skips))
  {
    hide Ahead, Frames, Wrap16, Wrap32;
    var out := BridgeHeard(RtpAll(Shifted(offset, agent)), agent, skips);
    forall i | 0 < i < |agent| ensures Follows(out[i - 1].mark, out[i]) {
      ShiftedNeighbours(offset, agent, i);
    }
  }

  lemma ShiftedNeighbours(offset: Mark, agent: seq<Mark>, i: nat)
    requires 0 < i < |agent|
    ensures Shifted(offset, agent)[i]
            == Ahead(Shifted(offset, agent)[i - 1], agent[i].number - agent[i - 1].number, agent[i].ts - agent[i - 1].ts)
  {
    hide Ahead, Wrap16, Wrap32;
    var a, p, q := agent[0], agent[i - 1], agent[i];
    AheadAhead(offset, q.number - a.number, q.ts - a.ts, 1, 960);
    AheadAhead(offset, p.number - a.number, p.ts - a.ts, 1, 960);
    AheadAhead(offset, p.number - a.number + 1, p.ts - a.ts + 960, q.number - p.number, q.ts - p.ts);
    assert Shifted(offset, agent)[i] == Ahead(offset, q.number - a.number + 1, q.ts - a.ts + 960);
    assert Shifted(offset, agent)[i - 1] == Ahead(offset, p.number - a.number + 1, p.ts - a.ts + 960);
  }

  function Latest(c: Call): Mark
    requires c.heard != []
  {
    c.heard[|c.heard| - 1].mark
  }

  /** Everything heard so far is linked, the current source stands right after it, and it is alone on the track. */
  ghost predicate OnTrack(c: Call) {
    && Linked(c.heard) && c.strays == []
    && (c.source.Talking? ==> c.heard != [] && c.source.last == Latest(c) && c.skips == 0)
    && (!c.source.Talking? && c.heard != [] ==> c.source.next == Frames(Latest(c), 1 + c.skips))
  }

  lemma FramesFrames(m: Mark, i: int, j: int)
    ensures Frames(Frames(m, i), j) == Frames(m, i + j)
  {
    AheadAhead(m, i, 960 * i, j, 960 * j);
    hide Ahead;
  }

  lemma BurstFacts(next: Mark, n: nat, skips: nat)
    ensures var out := BurstHeard(next, n, skips);
            && |out| == n && Linked(out)
            && (n > 0 ==> out[0] == Heard(next, Frame(skips)) && Frames(next, n) == Frames(out[n - 1].mark, 1))
            && Frames(next, 0) == next
  {
    hide Frames, Linked, Burst;
    BurstLinked(next, n, skips);
    BurstEmpty(next);
    if n > 0 { FramesFrames(next, n - 1, 1); }
  }

  lemma PlayOnTrack(c: Call, n: nat)
    requires OnTrack(c)
    ensures OnTrack(Step(c, Play(n)))
  {
    if !c.source.Talking? {
      hide Frames, Linked, BurstHeard;
      var out := BurstHeard(c.source.next, n, c.skips);
      BurstFacts(c.source.next, n, c.skips);
      assert n == 0 ==> c.heard + out == c.heard;
      LinkedAppend(c.heard, out);
    }
  }

  lemma ConnectOnTrack(c: Call, agent: seq<Mark>)
    requires OnTrack(c) && c.source.Ringing? && c.source.next.number != 0 && agent != []
    ensures OnTrack(Step(c, Connect(agent)))
  {
    hide Frames, Ahead, Wrap16, Wrap32, ForwardAll, Linked, Shifted;
    var next := c.source.next;
    SeededBridge(next, agent);
    ShiftedSize(next, agent);
    BridgeLinked(next, agent, c.skips);
    var out := BridgeHeard(RtpAll(Shifted(next, agent)), agent, c.skips);
    if c.heard != [] {
      FramesFrames(Latest(c), 1 + c.skips, 1);
    }
    LinkedAppend(c.heard, out);
    assert Step(c, Connect(agent)).heard == c.heard + out;
  }

  lemma ShiftedSize(offset: Mark, agent: seq<Mark>)
    requires agent != []
    ensures |Shifted(offset, agent)| == |agent| && Shifted(offset, agent)[0] == Frames(offset, 1)
  {
    AheadNothing(offset);
    hide Ahead, Frames;
  }

  lemma AheadNothing(m: Mark)
    ensures Ahead(m, 0, 0) == m
  {
  }

  lemma StepOnTrack(c: Call, op: Op)
    requires OnTrack(c) && Smooth(c, op)
    ensures OnTrack(Step(c, op))
  {
    hide Frames, Linked;
    match op
    case Play(n) => PlayOnTrack(c, n);
    case Stray(_, _) =>
    case Transfer =>
    case Connect(agent) => if c.source.Ringing? { ConnectOnTrack(c, agent); }
    case HoldCall =>
    case AgentTransfer =>
    case End(late) => if c.source.Ringing? || c.source.Held? { EndOnTrack(c, late); }
  }

  lemma EndOnTrack(c: Call, late: nat)
    requires OnTrack(c) && (c.source.Ringing? || c.source.Held?) && Resumes(c.source.next, late)
    ensures OnTrack(EndPlayer(c, c.source.next, late))
  {
    hide Frames, Linked, BurstHeard;
    var next := c.source.next;
    var out := BurstHeard(next, late, c.skips);
    BurstFacts(next, late, c.skips);
    if c.heard != [] { FramesFrames(Latest(c), 1 + c.skips, 1); }
    assert late == 0 ==> c.heard + out == c.heard;
    LinkedAppend(c.heard, out);
  }

  lemma {:induction false} ChainOnTrack(ops: seq<Op>)
    requires AllSmooth(ops)
    ensures OnTrack(Run(ops))
  {
    if ops != [] {
      var n := |ops| - 1;
      ChainOnTrack(ops[..n]);
      StepOnTrack(Run(ops[..n]), ops[n]);
    }
  }

  /**
   Continuity over the whole chain. If no hand-off value is exactly 0, every bridge forwards a
   packet, no agent transfer starts on a held call or in the IVR and at most one packet is late
   at an end, each packet a source
   counts itself comes 1 + skipped frames after the one before it, in 16-bit and 32-bit
   wrap-around arithmetic, and each later agent packet keeps the agent's own distance.
   */
  lemma Continuity(ops: seq<Op>)
    requires AllSmooth(ops)
    ensures Linked(Run(ops).heard) && InNumbers(Run(ops).heard)
  {
    ChainOnTrack(ops);
    LinkedInNumbers(Run(ops).heard);
  }

  /** The same link in the receiver's arithmetic: 960 samples to a frame, 65536 numbers, 2^32 timestamps. */
  predicate InNumbers(heard: seq<Heard>) {
    forall i :: 0 < i < |heard| ==>
      var before, now := heard[i - 1].mark, heard[i].mark;
      match heard[i].origin
      case Frame(skipped) =>
        now.number == (before.number + 1 + skipped) % 65536 && now.ts == (before.ts + 960 + 960 * skipped) % 4294967296
      case Agent(packets, samples) =>
        now.number == (before.number + packets) % 65536 && now.ts == (before.ts + samples) % 4294967296
  }

  lemma LinkedInNumbers(heard: seq<Heard>)
    requires Linked(heard)
    ensures InNumbers(heard)
  {
    forall i | 0 < i < |heard| ensures Follows(heard[i - 1].mark, heard[i]) {
    }
  }

  /** A player that took over from a player sends at least one packet before it hands over in turn. */
  predicate Audible(c: Call, op: Op) {
    (op.Connect? || op.End?) && !c.source.Talking? ==> c.skips == 0
  }

  predicate AllAudible(ops: seq<Op>) {
    ops == [] || (AllAudible(ops[..|ops| - 1]) && Audible(Run(ops[..|ops| - 1]), ops[|ops| - 1]))
  }

  predicate AtMostOneSkipped(heard: seq<Heard>) {
    forall i :: 0 <= i < |heard| ==> heard[i].origin.Frame? ==> heard[i].origin.skipped <= 1
  }

  lemma StepSkips(c: Call, op: Op)
    requires c.skips <= 1 && AtMostOneSkipped(c.heard) && Audible(c, op)
    ensures Step(c, op).skips <= 1 && AtMostOneSkipped(Step(c, op).heard)
  {
    hide Frames, TakeOver, ForwardAll;
    if op.Connect? && c.source.Ringing? {
      ForwardShape(BridgeAfter(c.source.next), op.agent);
    }
  }

  /** Then a new source is never more than two frames ahead: 1 or 2 numbers, 960 or 1920 samples. */
  lemma {:induction false} OneOrTwoAhead(ops: seq<Op>)
    requires AllSmooth(ops) && AllAudible(ops)
    ensures Run(ops).skips <= 1 && AtMostOneSkipped(Run(ops).heard)
  {
    if ops != [] {
      hide Step, AtMostOneSkipped;
      var n := |ops| - 1;
      OneOrTwoAhead(ops[..n]);
      StepSkips(Run(ops[..n]), ops[n]);
    } else {
      assert Run(ops) == Dialled;
    }
  }

  // ----- The conditions are exact -----

  /** Whatever the new player and the players left running then send, in this order, is linked. */
  ghost predicate Carries(c: Call, op: Op) {
    forall n: nat, j: nat :: Linked(Tail(c, op, n, j))
  }

  function Tail(c: Call, op: Op, n: nat, j: nat): seq<Heard> {
    Step(Step(Step(c, op), Play(n)), Stray(0, j)).heard
  }

  /** A hold, an agent transfer or an end carries the stream on if and only if it is smooth. */
  lemma HandOffContinuousIff(c: Call, op: Op)
    requires OnTrack(c) && c.heard != [] && (op.HoldCall? || op.AgentTransfer? || op.End?)
    ensures Carries(c, op) <==> Smooth(c, op)
  {
    hide Linked, OnTrack, Step;
    if Smooth(c, op) {
      forall n: nat, j: nat ensures Linked(Tail(c, op, n, j)) {
        StepOnTrack(c, op);
        PlayOnTrack(Step(c, op), n);
        StepOnTrack(Step(Step(c, op), Play(n)), Stray(0, j));
        OnTrackLinked(Step(Step(Step(c, op), Play(n)), Stray(0, j)));
      }
    } else {
      RoughBreaks(c, op);
    }
  }

  lemma OnTrackLinked(c: Call)
    requires OnTrack(c)
    ensures Linked(c.heard)
  {
  }

  lemma RoughBreaks(c: Call, op: Op)
    requires OnTrack(c) && c.heard != [] && (op.HoldCall? || op.AgentTransfer? || op.End?) && !Smooth(c, op)
    ensures !Linked(Tail(c, op, 1, 1))
  {
    var next := Step(c, op);
    var k := |next.heard|;
    NewPlayer(c, op);
    TailFacts(c, op);
    if op.AgentTransfer? && !c.source.Talking? {
      assert next.source.next == Mark(0, 0) && next.skips == c.skips && Latest(next) == Latest(c);
      RestartBreaks(Latest(c), c.skips, c.source.next);
    } else {
      LostPlaceBreaks(c, op);
    }
    hide Step, Tail, Frames, Linked, Follows, OnTrack, Smooth;
    NotLinked(Tail(c, op, 1, 1), k);
  }

  /** One packet of the new player, then one of the player left running, if there is one. */
  lemma TailFacts(c: Call, op: Op)
    requires !Step(c, op).source.Talking?
    ensures var next := Step(c, op);
            var k, heard := |next.heard|, Tail(c, op, 1, 1);
            && k < |heard| && heard[..k] == next.heard && heard[k] == Heard(next.source.next, Frame(next.skips))
            && (next.strays != [] ==> k + 1 < |heard| && heard[k + 1] == Heard(next.strays[0], Frame(0)))
  {
    var next := Step(c, op);
    BurstFacts(next.source.next, 1, next.skips);
    if next.strays != [] { BurstFacts(next.strays[0], 1, 0); }
    TailIs(next);
    hide Step, BurstHeard, Frames;
  }

  lemma TailIs(next: Call)
    requires !next.source.Talking?
    ensures Step(Step(next, Play(1)), Stray(0, 1)).heard
            == next.heard + BurstHeard(next.source.next, 1, next.skips)
               + if next.strays != [] then BurstHeard(next.strays[0], 1, 0) else []
  {
    hide Frames, BurstHeard;
    var before := next.heard + BurstHeard(next.source.next, 1, next.skips);
    assert before + [] == before;
  }

  lemma NewPlayer(c: Call, op: Op)
    requires OnTrack(c) && c.heard != [] && (op.HoldCall? || op.AgentTransfer? || op.End?) && !Smooth(c, op)
    ensures !Step(c, op).source.Talking? && |Step(c, op).heard| >= |c.heard|
    ensures op.AgentTransfer? && !c.source.Talking? ==> Step(c, op).heard == c.heard && Step(c, op).strays == [c.source.next]
  {
    hide Frames, Linked, TakeOver;
  }

  lemma NotLinked(heard: seq<Heard>, k: nat)
    requires 0 < k < |heard|
    requires !Follows(heard[k - 1].mark, heard[k]) || (k + 1 < |heard| && !Follows(heard[k].mark, heard[k + 1]))
    ensures !Linked(heard)
  {
    hide Follows;
  }

  /** A restart at 0 beside the old player: one of the two packets is out of line. */
  lemma RestartBreaks(latest: Mark, skips: nat, next: Mark)
    requires next == Frames(latest, 1 + skips)
    ensures !Follows(latest, Heard(Mark(0, 0), Frame(skips))) || !Follows(Mark(0, 0), Heard(next, Frame(0)))
  {
  }

  lemma LostPlaceBreaks(c: Call, op: Op)
    requires OnTrack(c) && c.heard != [] && !Smooth(c, op)
    requires op.HoldCall? || op.End? || (op.AgentTransfer? && c.source.Talking?)
    ensures var next := Step(c, op);
            !next.source.Talking? && next.heard != [] && !Follows(Latest(next), Heard(next.source.next, Frame(next.skips)))
  {
    hide Frames, TakeOver, Linked;
    if c.source.Talking? {
      AfterZero(c.source.last);
      TakeOverNeverOne(c.source.last);
      TakeOverNeverOne(c.saved);
    } else if op.late == 0 {
      FramesFrames(Latest(c), 1 + c.skips, 1);
      AfterZero(c.source.next);
      TakeOverNeverOne(c.source.next);
      assert c.heard + BurstHeard(c.source.next, 0, c.skips) == c.heard;
    } else {
      BurstFacts(c.source.next, op.late, c.skips);
    }
  }

  lemma AfterZero(m: Mark)
    ensures m.number == 0 ==> Frames(m, 1).number == 1
  {
  }

  /** A player that takes over starts at 0 or after a number that is not 0, so never at 1. */
  lemma TakeOverNeverOne(m: Mark)
    ensures TakeOver(m).number != 1
  {
  }

  /** A bridge carries every agent stream on if and only if the number handed over is not 0. */
  lemma BridgeContinuousIff(c: Call)
    requires OnTrack(c) && c.source.Ringing? && c.heard != []
    ensures (forall agent :: agent != [] ==> Linked(Step(c, Connect(agent)).heard)) <==> c.source.next.number != 0
  {
    var next := c.source.next;
    if next.number != 0 {
      forall agent: seq<Mark> | agent != [] ensures Linked(Step(c, Connect(agent)).heard) {
        ConnectOnTrack(c, agent);
      }
    } else {
      UnseededBreaks(c);
    }
  }

  const Five := [Mark(5, 0)]

  lemma UnseededBreaks(c: Call)
    requires OnTrack(c) && c.source.Ringing? && c.heard != [] && c.source.next.number == 0
    ensures !Linked(Step(c, Connect(Five)).heard)
  {
    var k := |c.heard|;
    var heard := Step(c, Connect(Five)).heard;
    assert GoodAll(Five) == [Incoming(Good(Mark(5, 0)), Written)];
    assert GoodAll(Five)[..0] == [];
    assert ForwardAll(FreshNumbering, GoodAll(Five)).sent == [Rtp(Mark(5, 0))];
    assert heard[k] == Heard(Mark(5, 0), Frame(c.skips + 1));
    FramesFrames(Latest(c), 1 + c.skips, 1);
    assert Frames(c.source.next, 1).number == 1;
    assert !Follows(heard[k - 1].mark, heard[k]);
  }

  // ----- Witnesses -----

  lemma RunSnoc(ops: seq<Op>, op: Op)
    ensures Run(ops + [op]) == Step(Run(ops), op)
    ensures AllSmooth(ops + [op]) <==> AllSmooth(ops) && Smooth(Run(ops), op)
  {
    assert (ops + [op])[..|ops|] == ops;
  }

  const WrapRun := [Play(0x1_0000), Transfer]

  /** A wait of exactly 65536 packets (about 22 minutes) hands over 0, and the agent's numbers come through raw. */
  lemma WrapBreaksContinuity()
    ensures !Linked(Run(WrapRun + [Connect(Five)]).heard)
  {
    var c := Step(Dialled, Play(0x1_0000));
    assert [] + [Play(0x1_0000)] == [Play(0x1_0000)];
    RunSnoc([], Play(0x1_0000));
    RunSnoc([Play(0x1_0000)], Transfer);
    RunSnoc(WrapRun, Connect(Five));
    PlayOnTrack(Dialled, 0x1_0000);
    assert c.source.next.number == 0;
    UnseededBreaks(Step(c, Transfer));
  }

  /** Music, an agent, and the agent puts the call on hold. */
  const HeldRun := [Play(1), Transfer, Connect(Five), HoldCall]

  lemma FirstFrame()
    ensures Frames(Mark(0, 0), 1) == Mark(1, 960)
  {
  }

  lemma MusicPlayed()
    ensures AllSmooth([Play(1), Transfer]) && Run([Play(1), Transfer]).source == Ringing(Mark(1, 960))
  {
    hide Frames, BurstHeard;
    FirstFrame();
    assert [] + [Play(1)] == [Play(1)];
    assert [Play(1)] + [Transfer] == [Play(1), Transfer];
    RunSnoc([], Play(1));
    RunSnoc([Play(1)], Transfer);
  }

  lemma HeldRunIsSmooth()
    ensures AllSmooth(HeldRun) && Run(HeldRun).source.Held? && Run(HeldRun).heard != []
  {
    hide AllSmooth, Run;
    var before := [Play(1), Transfer];
    MusicPlayed();
    TalkingAfterFive(Run(before));
    assert before + [Connect(Five)] + [HoldCall] == HeldRun;
    RunSnoc(before, Connect(Five));
    RunSnoc(before + [Connect(Five)], HoldCall);
  }

  lemma TalkingAfterFive(c: Call)
    requires c.source == Ringing(Mark(1, 960))
    ensures var c' := Step(c, Connect(Five)); c'.source == Talking(Mark(2, 1920)) && c'.heard != []
  {
    SeededBridge(Mark(1, 960), Five);
    ShiftedSize(Mark(1, 960), Five);
    hide ForwardAll, Shifted;
  }

  /** Transferring a held call: the new music restarts at 0 and the old one keeps playing. */
  lemma TransferOnHoldBreaksContinuity()
    ensures AllSmooth(HeldRun)
    ensures !Linked(Run(HeldRun + [AgentTransfer] + [Play(1)] + [Stray(0, 1)]).heard)
  {
    HeldRunIsSmooth();
    ChainOnTrack(HeldRun);
    hide Step, Linked;
    RunSnoc(HeldRun, AgentTransfer);
    RunSnoc(HeldRun + [AgentTransfer], Play(1));
    RunSnoc(HeldRun + [AgentTransfer] + [Play(1)], Stray(0, 1));
    RoughBreaks(Run(HeldRun), AgentTransfer);
  }
}
