/**
 Keypad digits (internal/calling/dtmf.go, and collectDTMFDigits of ivr.go). A key press arrives
 as telephone-event packets of one event number, the end bit set on the last ones, which are
 repeated (sections 2.3 and 2.5.1.4 of RFC 4733).
 */
module Dtmf {
  import opened Wrappers

  type Byte = x: int | 0 <= x < 256

  /** What the decoder looks at: event number and end bit. */
  datatype Event = Event(id: Byte, end: bool)

  /** dtmfDigits */
  const Keys := "0123456789*#"

  function Key(id: Byte): char
    requires id < 12
  {
    Keys[id]
  }

  function DigitOf(id: Byte): Option<char> { if id < 12 then Some(Key(id)) else None }

  /** The event codes of the twelve keys (section 3.2 of RFC 4733); no other event is a key. */
  lemma KeyTable(id: Byte)
    ensures id < 10 ==> DigitOf(id) == Some('0' + id as char)
    ensures id == 10 ==> DigitOf(id) == Some('*')
    ensures id == 11 ==> DigitOf(id) == Some('#')
    ensures id > 11 ==> DigitOf(id) == None
  {
    assert Keys == ['0', '1', '2', '3', '4', '5', '6', '7', '8', '9', '*', '#'];
  }

  // ----- Decoder -----

  /** The state before the first packet: 0xFF is no event of a key. */
  const Sentinel := Event(0xFF, false)

  function Emits(last: Event, e: Event): Option<char> {
    if e.end && (last.id != e.id || !last.end) then DigitOf(e.id) else None
  }

  function DecodeAll(last: Event, events: seq<Event>): string
    decreases |events|
  {
    if events == [] then ""
    else (if Emits(last, events[0]).Some? then [Emits(last, events[0]).value] else []) + DecodeAll(events[0], events[1..])
  }

  class Decoder {
    var lastEvent: Byte
    var lastEndBit: bool

    function View(): Event
      reads this
    {
      Event(lastEvent, lastEndBit)
    }

    constructor ()
      ensures View() == Sentinel
    {
      lastEvent, lastEndBit := 0xFF, false;
    }

    /** decodeDTMFEvent */
    method DecodeEvent(eventId: Byte, endBit: bool) returns (digit: Option<char>)
      modifies this
      ensures digit == Emits(old(View()), Event(eventId, endBit))
      ensures View() == Event(eventId, endBit)
    {
      digit := None;
      if endBit && (lastEvent != eventId || !lastEndBit) {
        digit := DigitOf(eventId);
      }
      lastEvent, lastEndBit := eventId, endBit;
    }

    /** handleDTMFTrack: payloads shorter than four bytes are skipped. */
    method HandleTrack(payloads: seq<seq<Byte>>) returns (digits: string)
      modifies this
      ensures digits == DecodeAll(old(View()), Parsed(payloads))
    {
      digits := "";
      for i := 0 to |payloads|
        invariant digits + DecodeAll(View(), Parsed(payloads[i..])) == DecodeAll(old(View()), Parsed(payloads))
      {
        ParsedHead(payloads[i..]);
        assert payloads[i..][1..] == payloads[i + 1..];
        if |payloads[i]| < 4 {
          continue;
        }
        var digit := DecodeEvent(payloads[i][0], payloads[i][1] / 0x80 == 1);
        if digit.Some? {
          digits := digits + [digit.value];
        }
      }
    }
  }

  function Parsed(payloads: seq<seq<Byte>>): seq<Event> {
    if payloads == [] then []
    else if |payloads[0]| < 4 then Parsed(payloads[1..])
    else [Event(payloads[0][0], payloads[0][1] >= 0x80)] + Parsed(payloads[1..])
  }

  lemma ParsedHead(payloads: seq<seq<Byte>>)
    requires payloads != []
    ensures |payloads[0]| < 4 ==> Parsed(payloads) == Parsed(payloads[1..])
    ensures |payloads[0]| >= 4 ==>
              (Parsed(payloads) != [] && Parsed(payloads)[0] == Event(payloads[0][0], payloads[0][1] >= 0x80)
               && Parsed(payloads)[1..] == Parsed(payloads[1..]))
  {
  }

  // ----- Encoder -----

  /** A key press as it arrives: `starts` packets without the end bit, then `1 + repeats` with it. */
  datatype Press = Press(key: Byte, starts: nat, repeats: nat)

  predicate IsKey(p: Press) { p.key < 12 }

  function Times(e: Event, n: nat): seq<Event> { if n == 0 then [] else [e] + Times(e, n - 1) }

  function Packets(p: Press): seq<Event> { Times(Event(p.key, false), p.starts) + Times(Event(p.key, true), 1 + p.repeats) }

  function Stream(presses: seq<Press>): seq<Event> {
    if presses == [] then [] else Packets(presses[0]) + Stream(presses[1..])
  }

  function Typed(presses: seq<Press>): string
    requires forall i :: 0 <= i < |presses| ==> IsKey(presses[i])
  {
    if presses == [] then ""
    else
      assert IsKey(presses[0]);
      [Key(presses[0].key)] + Typed(presses[1..])
  }

  /** The press can be told from the one before: some start packet arrived, or the key changed. */
  predicate Told(last: Event, p: Press) { p.starts > 0 || last != Event(p.key, true) }

  predicate AllTold(last: Event, presses: seq<Press>)
    decreases |presses|
  {
    presses == [] || (Told(last, presses[0]) && AllTold(Event(presses[0].key, true), presses[1..]))
  }

  lemma {:induction false} SilentTimes(last: Event, e: Event, n: nat, rest: seq<Event>)
    requires !e.end || last == e
    ensures DecodeAll(last, Times(e, n) + rest) == DecodeAll(if n == 0 then last else e, rest)
    decreases n
  {
    if n == 0 {
      assert Times(e, n) + rest == rest;
    } else {
      var all := Times(e, n) + rest;
      assert all[1..] == Times(e, n - 1) + rest;
      SilentTimes(e, e, n - 1, rest);
    }
  }

  /** One press contributes its digit exactly when it can be told from the one before. */
  lemma DecodePress(last: Event, p: Press, rest: seq<Event>)
    requires IsKey(p)
    ensures DecodeAll(last, Packets(p) + rest)
            == (if Told(last, p) then [Key(p.key)] else []) + DecodeAll(Event(p.key, true), rest)
  {
    var start, end := Event(p.key, false), Event(p.key, true);
    var ends := Times(end, 1 + p.repeats) + rest;
    assert Packets(p) + rest == Times(start, p.starts) + ends;
    SilentTimes(last, start, p.starts, ends);
    assert ends[1..] == Times(end, p.repeats) + rest;
    SilentTimes(end, end, p.repeats, rest);
  }

  lemma {:induction false} TypedLength(presses: seq<Press>)
    requires forall i :: 0 <= i < |presses| ==> IsKey(presses[i])
    ensures |Typed(presses)| == |presses|
  {
    if presses != [] { TypedLength(presses[1..]); }
  }

  lemma {:induction false} NeverMore(last: Event, presses: seq<Press>)
    requires forall i :: 0 <= i < |presses| ==> IsKey(presses[i])
    ensures |DecodeAll(last, Stream(presses))| <= |presses|
    decreases |presses|
  {
    if presses != [] {
      DecodePress(last, presses[0], Stream(presses[1..]));
      NeverMore(Event(presses[0].key, true), presses[1..]);
    }
  }

  /**
   Decoding inverts encoding: the digits decoded are the digits typed, if and only if every
   press that lost all its start packets is on another key than the press before it.
   */
  lemma {:induction false} DecodesIff(last: Event, presses: seq<Press>)
    requires forall i :: 0 <= i < |presses| ==> IsKey(presses[i])
    ensures DecodeAll(last, Stream(presses)) == Typed(presses) <==> AllTold(last, presses)
    decreases |presses|
  {
    if presses != [] {
      var p, rest, now := presses[0], presses[1..], Event(presses[0].key, true);
      DecodePress(last, p, Stream(rest));
      DecodesIff(now, rest);
      TypedLength(presses);
      NeverMore(now, rest);
      if Told(last, p) {
        assert DecodeAll(last, Stream(presses))[1..] == DecodeAll(now, Stream(rest));
        assert Typed(presses)[1..] == Typed(rest);
      }
    }
  }

  /** In particular when every press has a start packet, from any decoder state. */
  lemma {:induction false} WholePressesDecode(last: Event, presses: seq<Press>)
    requires forall i :: 0 <= i < |presses| ==> IsKey(presses[i]) && presses[i].starts > 0
    ensures DecodeAll(last, Stream(presses)) == Typed(presses)
    decreases |presses|
  {
    if presses != [] {
      WholePressesDecode(Event(presses[0].key, true), presses[1..]);
      DecodesIff(Event(presses[0].key, true), presses[1..]);
      DecodesIff(last, presses);
    }
  }

  /** A telephone-event payload (section 2.3 of RFC 4733): the event, the end bit above volume bits, the duration. */
  predicate Carries(payload: seq<Byte>, e: Event) {
    |payload| >= 4 && payload[0] == e.id && (e.end <==> 128 <= payload[1])
  }

  lemma {:induction false} CarriedParse(payloads: seq<seq<Byte>>, events: seq<Event>)
    requires |payloads| == |events| && forall i :: 0 <= i < |events| ==> Carries(payloads[i], events[i])
    ensures Parsed(payloads) == events
  {
    if payloads != [] {
      CarriedParse(payloads[1..], events[1..]);
      assert Carries(payloads[0], events[0]);
    }
  }

  /** From the payloads on the track to the digits typed. */
  lemma PayloadsDecode(last: Event, presses: seq<Press>, payloads: seq<seq<Byte>>)
    requires forall i :: 0 <= i < |presses| ==> IsKey(presses[i]) && presses[i].starts > 0
    requires |payloads| == |Stream(presses)|
    requires forall i :: 0 <= i < |payloads| ==> Carries(payloads[i], Stream(presses)[i])
    ensures DecodeAll(last, Parsed(payloads)) == Typed(presses)
    ensures forall i :: 0 <= i < |presses| && i < |Typed(presses)| ==> Some(Typed(presses)[i]) == DigitOf(presses[i].key)
    ensures |Typed(presses)| == |presses|
  {
    CarriedParse(payloads, Stream(presses));
    WholePressesDecode(last, presses);
    TypedAt(presses);
  }

  lemma {:induction false} TypedAt(presses: seq<Press>)
    requires forall i :: 0 <= i < |presses| ==> IsKey(presses[i])
    ensures |Typed(presses)| == |presses|
    ensures forall i :: 0 <= i < |presses| ==> Some(Typed(presses)[i]) == DigitOf(presses[i].key)
  {
    if presses != [] { TypedAt(presses[1..]); }
  }

  const Doubled := [Press(5, 1, 2), Press(5, 0, 0)]

  /** Two presses of one key whose second lost its start packets are read as one. */
  lemma LostStartMergesPresses()
    ensures DecodeAll(Sentinel, Stream(Doubled)) != Typed(Doubled)
  {
    assert Doubled[1..][0] == Press(5, 0, 0);
    assert !AllTold(Event(5, true), Doubled[1..]);
    DecodesIff(Sentinel, Doubled);
  }

  // ----- The buffer between decoder and IVR -----

  const BUFFER_SIZE := 32

  class DigitBuffer {
    var digits: string

    ghost predicate Valid() reads this { |digits| <= BUFFER_SIZE }

    constructor ()
      ensures Valid() && digits == ""
    {
      digits := "";
    }

    /** sendDTMFDigit drops the digit when the buffer is full. */
    method SendDigit(digit: char)
      requires Valid()
      modifies this
      ensures Valid()
      ensures digits == if |old(digits)| < 32 then old(digits) + [digit] else old(digits)
    {
      if |digits| < BUFFER_SIZE {
        digits := digits + [digit];
      }
    }
  }

  // ----- Collecting -----

  /** What the select in collectDTMFDigits yields. */
  datatype Receive = Digit(d: char) | Closed | Deadline

  predicate Keeps(r: Receive, terminator: string) { r.Digit? && [r.d] != terminator }

  /** The longest prefix of at most maxDigits digits that stops before the terminator, the end of the call or the deadline. */
  ghost predicate Collected(rs: seq<Receive>, maxDigits: int, terminator: string, digits: string) {
    && |digits| <= |rs|
    && |digits| <= (if maxDigits < 0 then 0 else maxDigits)
    && (forall i :: 0 <= i < |digits| ==> rs[i] == Digit(digits[i]) && [digits[i]] != terminator)
    && (|digits| >= maxDigits || (|digits| < |rs| && !Keeps(rs[|digits|], terminator)))
  }

  /** collectDTMFDigits. The deadline always fires in the end. */
  method CollectDigits(rs: seq<Receive>, maxDigits: int, terminator: string) returns (digits: string)
    requires rs != [] && !rs[|rs| - 1].Digit?
    ensures Collected(rs, maxDigits, terminator, digits)
  {
    digits := "";
    while |digits| < maxDigits
      invariant |digits| < |rs| && |digits| <= if maxDigits < 0 then 0 else maxDigits
      invariant forall i :: 0 <= i < |digits| ==> rs[i] == Digit(digits[i]) && [digits[i]] != terminator
      decreases |rs| - |digits|
    {
      var r := rs[|digits|];
      if !r.Digit? || [r.d] == terminator {
        return;
      }
      digits := digits + [r.d];
    }
  }

  function LongestPrefix(typed: string, maxDigits: int, terminator: string): string {
    if typed == "" || maxDigits <= 0 || [typed[0]] == terminator then ""
    else [typed[0]] + LongestPrefix(typed[1..], maxDigits - 1, terminator)
  }

  function Received(typed: string): (rs: seq<Receive>)
    ensures rs != []
  {
    seq(|typed|, i requires 0 <= i < |typed| => Digit(typed[i])) + [Deadline]
  }

  lemma CollectedTail(rs: seq<Receive>, maxDigits: int, terminator: string, digits: string)
    requires Collected(rs, maxDigits, terminator, digits) && digits != ""
    ensures Collected(rs[1..], maxDigits - 1, terminator, digits[1..])
    ensures maxDigits > 0 && rs[0] == Digit(digits[0]) && [digits[0]] != terminator
  {
    hide Keeps;
    var rest, tail := digits[1..], rs[1..];
    assert rs[0] == Digit(digits[0]);
    assert forall i :: 0 <= i < |rest| ==> rest[i] == digits[i + 1] && tail[i] == rs[i + 1];
    assert |digits| < |rs| ==> tail[|rest|] == rs[|digits|];
  }

  lemma CollectedNothing(rs: seq<Receive>, maxDigits: int, terminator: string)
    requires rs != [] && Collected(rs, maxDigits, terminator, "")
    ensures maxDigits <= 0 || !Keeps(rs[0], terminator)
  {
  }

  lemma ReceivedHead(typed: string)
    requires typed != ""
    ensures Received(typed)[0] == Digit(typed[0]) && Received(typed)[1..] == Received(typed[1..])
  {
  }

  lemma {:induction false} CollectedIsPrefix(typed: string, maxDigits: int, terminator: string, digits: string)
    requires Collected(Received(typed), maxDigits, terminator, digits)
    ensures digits == LongestPrefix(typed, maxDigits, terminator)
    decreases |typed|
  {
    hide Collected, Received;
    if digits == "" {
      CollectedEmpty(typed, maxDigits, terminator);
    } else {
      CollectedTail(Received(typed), maxDigits, terminator, digits);
      ReceivedOne(typed, digits[0]);
      ReceivedHead(typed);
      CollectedIsPrefix(typed[1..], maxDigits - 1, terminator, digits[1..]);
    }
  }

  lemma CollectedEmpty(typed: string, maxDigits: int, terminator: string)
    requires Collected(Received(typed), maxDigits, terminator, "")
    ensures LongestPrefix(typed, maxDigits, terminator) == ""
  {
    CollectedNothing(Received(typed), maxDigits, terminator);
    if typed != "" { ReceivedHead(typed); }
  }

  lemma ReceivedOne(typed: string, d: char)
    requires Received(typed)[0] == Digit(d)
    ensures typed != ""
  {
    assert typed == "" ==> Received(typed) == [Deadline];
  }

  /**
   From key presses to input: what collectDTMFDigits returns, when the decoder's digits all
   reach it before the deadline, is the longest prefix of the typed keys.
   */
  lemma GatherReturnsTyped(presses: seq<Press>, maxDigits: int, terminator: string, digits: string)
    requires forall i :: 0 <= i < |presses| ==> IsKey(presses[i]) && presses[i].starts > 0
    requires Collected(Received(DecodeAll(Sentinel, Stream(presses))), maxDigits, terminator, digits)
    ensures digits == LongestPrefix(Typed(presses), maxDigits, terminator)
  {
    WholePressesDecode(Sentinel, presses);
    CollectedIsPrefix(Typed(presses), maxDigits, terminator, digits);
  }
}
