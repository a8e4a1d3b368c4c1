/**
 The OGG page layout written by the call recorder (internal/calling/recorder.go) and the
 page reader that splits a stream back into Opus packets (internal/calling/audio.go).
 Section 6 of RFC 3533 fixes the layout: a 27-byte header, a segment table, the payload.
 */
module OggFormat {
  import Crc

  type Packet = seq<Byte>

  datatype ReadError = BadSignature | ShortSegmentTable | ShortPayload | ReadFailed

  datatype Result<+T> = Ok(value: T) | Err(error: ReadError)

  const PAGE_HEADER_LEN := 27

  // ----- Bytes -----

  type Byte = x: int | 0 <= x < 256

  /** The same bytes as the bit vectors the checksum works on. */
  function Words(data: seq<Byte>): seq<bv8> { seq(|data|, i requires 0 <= i < |data| => data[i] as bv8) }

  /** `width` bytes of `v`, least significant first; higher bytes are cut off. */
  function LittleEndian(v: nat, width: nat): (r: seq<Byte>)
    ensures |r| == width
    decreases width
  {
    if width == 0 then [] else [v % 256] + LittleEndian(v / 256, width - 1)
  }

  // ----- Writing a page -----

  /** A packet of `n` bytes: full 255-byte segments, then one shorter (possibly empty) one. */
  function Lacing(n: nat): (r: seq<Byte>)
    ensures |r| == n / 255 + 1
  {
    if n >= 255 then [255] + Lacing(n - 255) else [n]
  }

  function Segments(packets: seq<Packet>): seq<Byte> {
    if packets == [] then [] else Lacing(|packets[0]|) + Segments(packets[1..])
  }

  function Payload(packets: seq<Packet>): seq<Byte> {
    if packets == [] then [] else packets[0] + Payload(packets[1..])
  }

  /** "OggS", the capture pattern. */
  const CAPTURE: seq<Byte> := [0x4F, 0x67, 0x67, 0x53]

  function Preamble(flags: Byte, granule: nat, pageNo: nat): (r: seq<Byte>)
    ensures |r| == 22
  {
    CAPTURE + [0, flags] + LittleEndian(granule, 8) + LittleEndian(0, 4) + LittleEndian(pageNo, 4)
  }

  /** Page bytes after a 26-byte head. The segment count is kept in one byte. */
  function Frame(head: seq<Byte>, segments: seq<Byte>, payload: seq<Byte>): (r: seq<Byte>)
    requires |head| == 26
    ensures |r| == PAGE_HEADER_LEN + |segments| + |payload|
  {
    head + [|segments| % 256] + segments + payload
  }

  /** The checksum covers the whole page with its own field zeroed. */
  function Checksum(preamble: seq<Byte>, segments: seq<Byte>, payload: seq<Byte>): (r: seq<Byte>)
    requires |preamble| == 22
    ensures |r| == 4
  {
    LittleEndian(Crc.Remainder(Words(Frame(preamble + [0, 0, 0, 0], segments, payload))) as nat, 4)
  }

  function Head(flags: Byte, granule: nat, pageNo: nat, segments: seq<Byte>, payload: seq<Byte>): (r: seq<Byte>)
    ensures |r| == 26 && r[..4] == CAPTURE
  {
    var preamble := Preamble(flags, granule, pageNo);
    assert preamble[..4] == CAPTURE;
    preamble + Checksum(preamble, segments, payload)
  }

  function Page(flags: Byte, granule: nat, pageNo: nat, segments: seq<Byte>, payload: seq<Byte>): (r: seq<Byte>)
    ensures |r| == PAGE_HEADER_LEN + |segments| + |payload|
  {
    Frame(Head(flags, granule, pageNo, segments, payload), segments, payload)
  }

  // ----- Reading a stream -----

  function Total(segments: seq<Byte>): nat {
    if segments == [] then 0 else segments[0] + Total(segments[1..])
  }

  function Emit(packet: Packet): seq<Packet> { if packet == [] then [] else [packet] }

  /** Splits one page's payload; `current` is the packet collected so far. */
  function Split(segments: seq<Byte>, payload: seq<Byte>, current: Packet): seq<Packet>
    decreases |segments|
  {
    if segments == [] || segments[0] > |payload| then
      Emit(current)
    else
      var size := segments[0];
      var grown := current + payload[..size];
      if size < 255 then
        Emit(grown) + Split(segments[1..], payload[size..], [])
      else
        Split(segments[1..], payload[size..], grown)
  }

  function Prepend(packets: seq<Packet>, r: Result<seq<Packet>>): Result<seq<Packet>> {
    match r
    case Err(e) => Err(e)
    case Ok(more) => Ok(packets + more)
  }

  lemma PrependConcat(a: seq<Packet>, b: seq<Packet>, r: Result<seq<Packet>>)
    ensures Prepend(a + b, r) == Prepend(a, Prepend(b, r))
    ensures Prepend([], r) == r
  {
    if r.Ok? {
      assert a + b + r.value == a + (b + r.value);
      assert [] + r.value == r.value;
    }
  }

  /** What readOpusPackets returns for `data` once `skipped` header pages are behind it. */
  function ReadStream(data: seq<Byte>, skipped: nat): Result<seq<Packet>>
    decreases |data|
  {
    if |data| < PAGE_HEADER_LEN then
      Ok([])
    else if data[..4] != CAPTURE then
      Err(BadSignature)
    else
      var n := data[26];
      if |data| < PAGE_HEADER_LEN + n then
        Err(ShortSegmentTable)
      else
        var segments := data[PAGE_HEADER_LEN..PAGE_HEADER_LEN + n];
        var end := PAGE_HEADER_LEN + n + Total(segments);
        if |data| < end then
          Err(ShortPayload)
        else if skipped < 2 then
          ReadStream(data[end..], skipped + 1)
        else
          Prepend(Split(segments, data[PAGE_HEADER_LEN + n..end], []), ReadStream(data[end..], skipped))
  }

  // ----- One page read back -----

  function NonEmpty(packets: seq<Packet>): seq<Packet> {
    if packets == [] then [] else Emit(packets[0]) + NonEmpty(packets[1..])
  }

  lemma {:induction false} TotalConcat(a: seq<Byte>, b: seq<Byte>)
    ensures Total(a + b) == Total(a) + Total(b)
  {
    if a == [] {
      assert a + b == b;
    } else {
      assert (a + b)[1..] == a[1..] + b;
      TotalConcat(a[1..], b);
    }
  }

  lemma {:induction false} LacingTotal(n: nat)
    ensures Total(Lacing(n)) == n
  {
    if n >= 255 {
      LacingTotal(n - 255);
      assert Lacing(n)[1..] == Lacing(n - 255);
    } else {
    }
  }

  /** The segment table accounts for every payload byte. */
  lemma {:induction false} SegmentsTotal(packets: seq<Packet>)
    ensures Total(Segments(packets)) == |Payload(packets)|
  {
    if packets != [] {
      TotalConcat(Lacing(|packets[0]|), Segments(packets[1..]));
      LacingTotal(|packets[0]|);
      SegmentsTotal(packets[1..]);
    }
  }

  /** The lacing of one packet is undone exactly, including lengths divisible by 255. */
  lemma {:induction false} SplitLacing(p: Packet, segments: seq<Byte>, payload: seq<Byte>, current: Packet)
    ensures Split(Lacing(|p|) + segments, p + payload, current)
         == Emit(current + p) + Split(segments, payload, [])
    decreases |p|
  {
    var s := Lacing(|p|) + segments;
    if |p| >= 255 {
      assert s[0] == 255 && s[1..] == Lacing(|p| - 255) + segments;
      assert (p + payload)[255..] == p[255..] + payload;
      assert current + (p + payload)[..255] + p[255..] == current + p;
      SplitLacing(p[255..], segments, payload, current + p[..255]);
      assert (p + payload)[..255] == p[..255];
    } else {
      assert s[0] == |p| && s[1..] == segments;
      assert (p + payload)[..|p|] == p && (p + payload)[|p|..] == payload;
    }
  }

  lemma {:induction false} SplitPage(packets: seq<Packet>)
    ensures Split(Segments(packets), Payload(packets), []) == NonEmpty(packets)
  {
    if packets != [] {
      SplitLacing(packets[0], Segments(packets[1..]), Payload(packets[1..]), []);
      assert [] + packets[0] == packets[0];
      SplitPage(packets[1..]);
    }
  }

  /** Whatever the segment table, also one that ends inside a packet, every payload byte comes out, in order. */
  lemma {:induction false} SplitConserves(segments: seq<Byte>, payload: seq<Byte>, current: Packet)
    requires Total(segments) == |payload|
    ensures Payload(Split(segments, payload, current)) == current + payload
    ensures forall k :: 0 <= k < |Split(segments, payload, current)| ==> Split(segments, payload, current)[k] != []
    decreases |segments|
  {
    if segments == [] {
      EmitConserves(current, []);
      assert current + payload == current;
    } else {
      var size := segments[0];
      var grown := current + payload[..size];
      assert grown + payload[size..] == current + payload;
      if size < 255 {
        hide Payload, Total;
        assert Total(segments[1..]) == |payload[size..]| by { TotalOfTail(segments); }
        SplitConserves(segments[1..], payload[size..], []);
        EmitConserves(grown, Split(segments[1..], payload[size..], []));
        assert [] + payload[size..] == payload[size..];
      } else {
        hide Payload, Total;
        assert Total(segments[1..]) == |payload[size..]| by { TotalOfTail(segments); }
        SplitConserves(segments[1..], payload[size..], grown);
      }
    }
  }

  lemma TotalOfTail(segments: seq<Byte>)
    requires segments != []
    ensures Total(segments) == segments[0] + Total(segments[1..])
  {
  }

  lemma EmitConserves(packet: Packet, rest: seq<Packet>)
    ensures Payload(Emit(packet) + rest) == packet + Payload(rest)
    ensures Payload(Emit(packet)) == packet
    ensures (forall k :: 0 <= k < |rest| ==> rest[k] != []) ==> forall k :: 0 <= k < |Emit(packet) + rest| ==> (Emit(packet) + rest)[k] != []
  {
    assert packet + [] == packet;
    if packet == [] {
      assert Emit(packet) + rest == rest;
    } else {
      assert (Emit(packet) + rest)[1..] == rest;
    }
  }

  lemma Layout(head: seq<Byte>, segments: seq<Byte>, payload: seq<Byte>, rest: seq<Byte>)
    requires |head| == 26 && |segments| <= 255
    ensures var data := Frame(head, segments, payload) + rest;
            var start := PAGE_HEADER_LEN + |segments|;
            && data[..4] == head[..4]
            && data[26] == |segments|
            && data[PAGE_HEADER_LEN..start] == segments
            && data[start..start + |payload|] == payload
            && data[start + |payload|..] == rest
  {}

  /** A page followed by anything: the reader consumes exactly the page. */
  lemma ReadPage(flags: Byte, granule: nat, pageNo: nat, packets: seq<Packet>, rest: seq<Byte>, skipped: nat)
    requires |Segments(packets)| <= 255
    ensures var data := Page(flags, granule, pageNo, Segments(packets), Payload(packets)) + rest;
            ReadStream(data, skipped) ==
              if skipped < 2 then ReadStream(rest, skipped + 1)
              else Prepend(NonEmpty(packets), ReadStream(rest, skipped))
  {
    var segments, payload := Segments(packets), Payload(packets);
    Layout(Head(flags, granule, pageNo, segments, payload), segments, payload, rest);
    SegmentsTotal(packets);
    SplitPage(packets);
  }

  // ----- The one-byte segment count -----

  /** Where the reader expects the page after the one at the start of `data`. */
  function NextPage(data: seq<Byte>): nat
    requires |data| >= PAGE_HEADER_LEN && |data| >= PAGE_HEADER_LEN + data[26]
  {
    PAGE_HEADER_LEN + data[26] + Total(data[PAGE_HEADER_LEN..PAGE_HEADER_LEN + data[26]])
  }

  lemma FrameInStep(head: seq<Byte>, segments: seq<Byte>, payload: seq<Byte>)
    requires |head| == 26 && Total(segments) == |payload|
    ensures var page := Frame(head, segments, payload);
            && |page| >= PAGE_HEADER_LEN && |page| >= PAGE_HEADER_LEN + page[26]
            && (NextPage(page) == |page| <==> |segments| <= 255)
  {
    var n := |segments| % 256;
    var page := Frame(head, segments, payload);
    assert page[26] == n;
    assert page[PAGE_HEADER_LEN..PAGE_HEADER_LEN + n] == segments[..n];
    assert segments == segments[..n] + segments[n..];
    TotalConcat(segments[..n], segments[n..]);
    assert |segments| <= 255 ==> segments[..n] == segments;
  }

  /** The reader lands on the end of a page exactly when the page has at most 255 segments. */
  lemma InStepIffCountFits(flags: Byte, granule: nat, pageNo: nat, packets: seq<Packet>)
    ensures var page := Page(flags, granule, pageNo, Segments(packets), Payload(packets));
            && |page| >= PAGE_HEADER_LEN && |page| >= PAGE_HEADER_LEN + page[26]
            && (NextPage(page) == |page| <==> |Segments(packets)| <= 255)
  {
    var segments, payload := Segments(packets), Payload(packets);
    SegmentsTotal(packets);
    FrameInStep(Head(flags, granule, pageNo, segments, payload), segments, payload);
  }

  lemma StopsInsideTable(head: seq<Byte>, segments: seq<Byte>, payload: seq<Byte>, rest: seq<Byte>, skipped: nat)
    requires |head| == 26 && head[..4] == CAPTURE
    requires |segments| > 0 && |segments| % 256 == 0 && segments[0] == 255
    ensures ReadStream(Frame(head, segments, payload) + rest, skipped) == Err(BadSignature)
  {
    var data := Frame(head, segments, payload) + rest;
    var tail := segments + payload + rest;
    assert data[..4] == head[..4] && data[26] == 0;
    assert data[PAGE_HEADER_LEN..] == tail;
    assert data[PAGE_HEADER_LEN..PAGE_HEADER_LEN + 0] == [];
    assert tail[..4][0] == 255;
  }

  /** A page whose count wraps to zero and that opens with a full segment stops the reader. */
  lemma WrappedCountIsFatal(flags: Byte, granule: nat, pageNo: nat, packets: seq<Packet>, rest: seq<Byte>, skipped: nat)
    requires |Segments(packets)| > 0 && |Segments(packets)| % 256 == 0
    requires |packets[0]| >= 255
    ensures var data := Page(flags, granule, pageNo, Segments(packets), Payload(packets)) + rest;
            ReadStream(data, skipped) == Err(BadSignature)
  {
    var segments, payload := Segments(packets), Payload(packets);
    assert segments[0] == 255;
    StopsInsideTable(Head(flags, granule, pageNo, segments, payload), segments, payload, rest, skipped);
  }

  // ----- The reader as code -----

  /** What a reader that has `packets` and stands at `pos` ends with. */
  function Rest(packets: seq<Packet>, data: seq<Byte>, pos: nat, skipped: nat): Result<seq<Packet>>
    requires pos <= |data|
  {
    Prepend(packets, ReadStream(data[pos..], skipped))
  }

  lemma RestFromStart(data: seq<Byte>)
    ensures Rest([], data, 0, 0) == ReadStream(data, 0)
  {
    hide ReadStream;
    assert data[0..] == data;
    PrependConcat([], [], ReadStream(data, 0));
  }

  lemma RestAtEnd(packets: seq<Packet>, data: seq<Byte>, pos: nat, skipped: nat)
    requires pos <= |data| < pos + PAGE_HEADER_LEN
    ensures Rest(packets, data, pos, skipped) == Ok(packets)
  {
    assert packets + [] == packets;
  }

  lemma RestFails(packets: seq<Packet>, data: seq<Byte>, pos: nat, skipped: nat)
    requires pos + PAGE_HEADER_LEN <= |data|
    ensures var start := pos + PAGE_HEADER_LEN + data[pos + 26];
            && (data[pos..pos + 4] != CAPTURE ==> Rest(packets, data, pos, skipped) == Err(BadSignature))
            && (data[pos..pos + 4] == CAPTURE && |data| < start ==> Rest(packets, data, pos, skipped) == Err(ShortSegmentTable))
            && (data[pos..pos + 4] == CAPTURE && start <= |data| && |data| < start + Total(data[pos + PAGE_HEADER_LEN..start]) ==>
                  Rest(packets, data, pos, skipped) == Err(ShortPayload))
  {
    hide ReadStream, Total;
    ReadStep(data, pos, skipped);
  }

  lemma RestAfterPage(packets: seq<Packet>, data: seq<Byte>, pos: nat, skipped: nat, start: nat, end: nat)
    requires pos + PAGE_HEADER_LEN <= start <= end <= |data| && data[pos..pos + 4] == CAPTURE
    requires start == pos + PAGE_HEADER_LEN + data[pos + 26] && end == start + Total(data[pos + PAGE_HEADER_LEN..start])
    ensures Rest(packets, data, pos, skipped) ==
              if skipped < 2 then Rest(packets, data, end, skipped + 1)
              else Rest(packets + Split(data[pos + PAGE_HEADER_LEN..start], data[start..end], []), data, end, skipped)
  {
    hide ReadStream, Total, Split, Prepend;
    ReadStep(data, pos, skipped);
    PrependConcat(packets, Split(data[pos + PAGE_HEADER_LEN..start], data[start..end], []), ReadStream(data[end..], skipped));
  }

  /** audio.go, readOpusPackets. `broken` says that the input ends in a read error, not in end of file. */
  method ReadOpusPackets(data: seq<Byte>, broken: bool) returns (r: Result<seq<Packet>>)
    ensures r == if broken && ReadStream(data, 0).Ok? then Err(ReadFailed) else ReadStream(data, 0)
  {
    hide Rest, ReadStream, Total, Split;
    var packets: seq<Packet> := [];
    var skipped := 0;
    var pos := 0;
    RestFromStart(data);
    while |data| - pos >= PAGE_HEADER_LEN
      invariant 0 <= pos <= |data|
      invariant ReadStream(data, 0) == Rest(packets, data, pos, skipped)
      decreases |data| - pos
    {
      RestFails(packets, data, pos, skipped);
      if data[pos..pos + 4] != CAPTURE {
        return Err(BadSignature);
      }
      var start := pos + PAGE_HEADER_LEN + data[pos + 26];
      if |data| < start {
        return Err(ShortSegmentTable);
      }
      var segments := data[pos + PAGE_HEADER_LEN..start];
      var size := SumSegments(segments);
      if |data| < start + size {
        return Err(ShortPayload);
      }
      RestAfterPage(packets, data, pos, skipped, start, start + size);
      if skipped < 2 {
        skipped := skipped + 1;
      } else {
        var more := SplitPayload(segments, data[start..start + size]);
        packets := packets + more;
      }
      pos := start + size;
    }
    RestAtEnd(packets, data, pos, skipped);
    if broken {
      return Err(ReadFailed);
    }
    r := Ok(packets);
  }

  /** One page of `ReadStream`, in terms of positions in the whole input. */
  lemma ReadStep(data: seq<Byte>, pos: nat, skipped: nat)
    requires pos + PAGE_HEADER_LEN <= |data|
    ensures
      var header := data[pos..pos + PAGE_HEADER_LEN];
      var start := pos + PAGE_HEADER_LEN + header[26];
      ReadStream(data[pos..], skipped) ==
        if header[..4] != CAPTURE then Err(BadSignature)
        else if |data| < start then Err(ShortSegmentTable)
        else
          var segments := data[pos + PAGE_HEADER_LEN..start];
          var end := start + Total(segments);
          if |data| < end then Err(ShortPayload)
          else if skipped < 2 then ReadStream(data[end..], skipped + 1)
          else Prepend(Split(segments, data[start..end], []), ReadStream(data[end..], skipped))
  {
    hide Split, Total, Prepend;
    var here := data[pos..];
    var header := data[pos..pos + PAGE_HEADER_LEN];
    var n := header[26];
    assert header[..4] == here[..4] && header[26] == here[26];
    if PAGE_HEADER_LEN + n <= |here| {
      var segments := here[PAGE_HEADER_LEN..PAGE_HEADER_LEN + n];
      var end := PAGE_HEADER_LEN + n + Total(segments);
      assert segments == data[pos + PAGE_HEADER_LEN..pos + PAGE_HEADER_LEN + n];
      if end <= |here| {
        assert here[PAGE_HEADER_LEN + n..end] == data[pos + PAGE_HEADER_LEN + n..pos + end];
        assert here[end..] == data[pos + end..];
      }
    }
  }

  method SumSegments(segments: seq<Byte>) returns (size: nat)
    ensures size == Total(segments)
  {
    size := 0;
    for i := 0 to |segments|
      invariant size + Total(segments[i..]) == Total(segments)
    {
      size := size + segments[i];
    }
  }

  /** audio.go:227-255, the inner loop with its running offset and current packet. */
  method SplitPayload(segments: seq<Byte>, payload: seq<Byte>) returns (packets: seq<Packet>)
    ensures packets == Split(segments, payload, [])
  {
    hide Split;
    packets := [];
    var offset := 0;
    var current: Packet := [];
    var i := 0;
    assert segments[0..] == segments && payload[0..] == payload;
    assert packets + Split(segments, payload, []) == Split(segments, payload, []);
    while i < |segments| && offset + segments[i] <= |payload|
      invariant 0 <= i <= |segments| && 0 <= offset <= |payload|
      invariant Split(segments, payload, []) == packets + Split(segments[i..], payload[offset..], current)
    {
      var size := segments[i];
      SplitStep(segments, payload, current, i, offset);
      current := current + payload[offset..offset + size];
      offset := offset + size;
      if size < 255 {
        ConcatAssociates(packets, Emit(current), Split(segments[i + 1..], payload[offset..], []));
        packets := packets + Emit(current);
        current := [];
      }
      i := i + 1;
    }
    SplitEnds(segments, payload, current, i, offset);
    packets := packets + Emit(current);
  }

  lemma SplitEnds(segments: seq<Byte>, payload: seq<Byte>, current: Packet, i: nat, offset: nat)
    requires i <= |segments| && offset <= |payload|
    requires i < |segments| ==> offset + segments[i] > |payload|
    ensures Split(segments[i..], payload[offset..], current) == Emit(current)
  {
    assert i < |segments| ==> segments[i..][0] == segments[i] && |payload[offset..]| == |payload| - offset;
  }

  lemma ConcatAssociates(a: seq<Packet>, b: seq<Packet>, c: seq<Packet>)
    ensures a + (b + c) == (a + b) + c
  {}

  lemma SplitStep(segments: seq<Byte>, payload: seq<Byte>, current: Packet, i: nat, offset: nat)
    requires i < |segments| && offset + segments[i] <= |payload|
    ensures var size := segments[i];
            var grown := current + payload[offset..offset + size];
            Split(segments[i..], payload[offset..], current) ==
              if size < 255 then Emit(grown) + Split(segments[i + 1..], payload[offset + size..], [])
              else Split(segments[i + 1..], payload[offset + size..], grown)
  {
    var size := segments[i];
    assert segments[i..][0] == segments[i];
    assert segments[i..][1..] == segments[i + 1..];
    assert payload[offset..][..size] == payload[offset..offset + size];
    assert payload[offset..][size..] == payload[offset + size..];
  }

  // ----- What the bytes of a page say -----

  /** A number stored least significant byte first: the sum of bytes[i] * 256^i. */
  function Value(bytes: seq<Byte>): nat { if bytes == [] then 0 else bytes[0] + 256 * Value(bytes[1..]) }

  function Power256(n: nat): (p: nat)
    ensures p > 0
  {
    if n == 0 then 1 else 256 * Power256(n - 1)
  }

  lemma ValueOfTwo(b: seq<Byte>)
    requires |b| == 2
    ensures Value(b) == (b[0] as int) + 0x100 * (b[1] as int)
  {
    assert Value(b[1..]) == b[1] + 256 * Value(b[1..][1..]);
  }

  lemma ValueOfFour(b: seq<Byte>)
    requires |b| == 4
    ensures Value(b) == (b[0] as int) + 0x100 * (b[1] as int) + 0x1_0000 * (b[2] as int) + 0x100_0000 * (b[3] as int)
  {
    assert b[1..][1..] == b[2..];
    ValueOfTwo(b[2..]);
  }

  lemma ModUnique(a: nat, m: nat, q: nat, r: nat)
    requires a == m * q + r && r < m
    ensures a % m == r
  {
    var q', r' := a / m, a % m;
    assert a == m * q' + r';
    SameQuotient(m, q, r, q', r');
  }

  lemma SameQuotient(m: nat, q: nat, r: nat, q': nat, r': nat)
    requires m * q + r == m * q' + r' && r < m && r' < m
    ensures q == q' && r == r'
  {
    Multiples(m, q - q');
    assert m * (q - q') == m * q - m * q';
  }

  lemma Multiples(m: int, d: int)
    requires m >= 0
    ensures d >= 1 ==> m * d >= m
    ensures d <= -1 ==> m * d <= -m
  {
  }

  lemma Regroup(p: nat, q: nat, r: nat, low: nat)
    ensures 256 * (p * q + r) + low == (256 * p) * q + (256 * r + low)
  {
  }

  /** Reading back a stored number gives it modulo 256 to the width. */
  lemma {:induction false} LittleEndianValue(v: nat, width: nat)
    ensures Value(LittleEndian(v, width)) == v % Power256(width)
    decreases width
  {
    if width > 0 {
      var p, low, high := Power256(width - 1), v % 256, v / 256;
      LittleEndianValue(high, width - 1);
      assert LittleEndian(v, width)[1..] == LittleEndian(high, width - 1);
      Euclid(high, p);
      Regroup(p, high / p, high % p, low);
      ModUnique(v, 256 * p, high / p, 256 * (high % p) + low);
    }
  }

  lemma Euclid(a: nat, m: nat)
    requires m > 0
    ensures a == m * (a / m) + a % m && 0 <= a / m && a % m < m
  {
  }

  lemma Powers()
    ensures Power256(2) == 0x1_0000 && Power256(4) == 0x1_0000_0000 && Power256(8) == 0x1_0000_0000_0000_0000
  {
    assert Power256(2) == 0x1_0000;
    assert Power256(4) == 256 * (256 * Power256(2));
    assert Power256(8) == 256 * (256 * (256 * (256 * Power256(4))));
  }

  /** The page with its checksum field blanked. */
  function Blanked(page: seq<Byte>): seq<bv8> {
    seq(|page|, i requires 0 <= i < |page| => if 22 <= i < 26 then 0 else page[i] as bv8)
  }

  /**
   A page, byte by byte (section 6 of RFC 3533): capture pattern, version 0, flags, granule
   position, stream serial 0, page number, the checksum of the page with its own field blanked,
   the number of segments, the segment table, the payload.
   */
  ghost predicate PageBytes(page: seq<Byte>, flags: Byte, granule: nat, pageNo: nat, segments: seq<Byte>, payload: seq<Byte>) {
    && |page| == 27 + |segments| + |payload|
    && page[0] == 0x4F && page[1] == 0x67 && page[2] == 0x67 && page[3] == 0x53
    && page[4] == 0 && page[5] == flags
    && Value(page[6..14]) == granule
    && Value(page[14..18]) == 0
    && Value(page[18..22]) == pageNo
    && Value(page[22..26]) == Crc.Remainder(Blanked(page)) as nat
    && page[26] == |segments| % 256
    && page[27..27 + |segments|] == segments
    && page[27 + |segments|..] == payload
  }

  lemma PreambleParts(flags: Byte, granule: nat, pageNo: nat, rest: seq<Byte>)
    ensures var page := Preamble(flags, granule, pageNo) + rest;
            && page[0] == 0x4F && page[1] == 0x67 && page[2] == 0x67 && page[3] == 0x53 && page[4] == 0 && page[5] == flags
            && page[6..14] == LittleEndian(granule, 8) && page[14..18] == LittleEndian(0, 4) && page[18..22] == LittleEndian(pageNo, 4)
  {
    hide LittleEndian;
  }

  lemma FrameParts(preamble: seq<Byte>, field: seq<Byte>, segments: seq<Byte>, payload: seq<Byte>)
    requires |preamble| == 22 && |field| == 4
    ensures var page := Frame(preamble + field, segments, payload);
            && page == preamble + (field + [|segments| % 256] + segments + payload)
            && page[22..26] == field && page[26] == |segments| % 256
            && page[27..27 + |segments|] == segments && page[27 + |segments|..] == payload
  {
  }

  lemma BlankedFrame(preamble: seq<Byte>, field: seq<Byte>, segments: seq<Byte>, payload: seq<Byte>)
    requires |preamble| == 22 && |field| == 4
    ensures Blanked(Frame(preamble + field, segments, payload)) == Words(Frame(preamble + [0, 0, 0, 0], segments, payload))
  {
    var page, blank := Frame(preamble + field, segments, payload), Frame(preamble + [0, 0, 0, 0], segments, payload);
    forall i | 0 <= i < |page| ensures Blanked(page)[i] == Words(blank)[i] {
      BlankByte(preamble, field, [0, 0, 0, 0], [|segments| % 256] + segments + payload, page, blank, i);
    }
  }

  lemma BlankByte(preamble: seq<Byte>, field: seq<Byte>, zeros: seq<Byte>, rest: seq<Byte>, page: seq<Byte>, blank: seq<Byte>, i: nat)
    requires |preamble| == 22 && |field| == 4 && zeros == [0, 0, 0, 0] && i < |page|
    requires page == preamble + field + rest && blank == preamble + zeros + rest
    ensures |blank| == |page| && blank[i] == if 22 <= i < 26 then 0 else page[i]
  {
  }

  /** What Page lays out is that page, for numbers that fit their fields. */
  lemma PageHasBytes(flags: Byte, granule: nat, pageNo: nat, segments: seq<Byte>, payload: seq<Byte>)
    requires granule < 0x1_0000_0000_0000_0000 && pageNo < 0x1_0000_0000
    ensures PageBytes(Page(flags, granule, pageNo, segments, payload), flags, granule, pageNo, segments, payload)
  {
    hide Crc.Remainder, Preamble, Frame, LittleEndian, Value, Power256, Blanked, Words;
    var preamble := Preamble(flags, granule, pageNo);
    var field := Checksum(preamble, segments, payload);
    Powers();
    LittleEndianValue(granule, 8);
    LittleEndianValue(0, 4);
    LittleEndianValue(pageNo, 4);
    ChecksumValue(preamble, segments, payload);
    FrameParts(preamble, field, segments, payload);
    PreambleParts(flags, granule, pageNo, field + [|segments| % 256] + segments + payload);
    assert Page(flags, granule, pageNo, segments, payload) == Frame(preamble + field, segments, payload);
  }

  lemma ChecksumValue(preamble: seq<Byte>, segments: seq<Byte>, payload: seq<Byte>)
    requires |preamble| == 22
    ensures var field := Checksum(preamble, segments, payload);
            Value(field) == Crc.Remainder(Blanked(Frame(preamble + field, segments, payload))) as nat
  {
    hide Crc.Remainder, Frame, LittleEndian, Value, Power256, Blanked, Words;
    BlankedFrame(preamble, Checksum(preamble, segments, payload), segments, payload);
    RegisterBytes(Crc.Remainder(Words(Frame(preamble + [0, 0, 0, 0], segments, payload))));
  }

  lemma RegisterBytes(register: bv32)
    ensures Value(LittleEndian(register as nat, 4)) == register as nat
  {
    hide LittleEndian, Value, Power256;
    RegisterFits(register);
    FourBytes(register as nat);
  }

  lemma RegisterFits(register: bv32)
    ensures (register as nat) < 0x1_0000_0000
  {
  }

  lemma FourBytes(v: nat)
    requires v < 0x1_0000_0000
    ensures Value(LittleEndian(v, 4)) == v
  {
    hide LittleEndian, Value, Power256;
    Powers();
    LittleEndianValue(v, 4);
  }

  // ----- Truncated and foreign input -----

  lemma ReadShort(data: seq<Byte>, skipped: nat)
    ensures |data| < 27 ==> ReadStream(data, skipped) == Ok([])
    ensures |data| >= 27 && data[..4] == CAPTURE ==>
              var n: nat := data[26];
              && (|data| < 27 + n ==> ReadStream(data, skipped) == Err(ShortSegmentTable))
              && (|data| >= 27 + n && |data| < 27 + n + Total(data[27..27 + n]) ==> ReadStream(data, skipped) == Err(ShortPayload))
  {
    hide Total, Split;
  }

  /** What the reader makes of the first `cut` bytes of a page: nothing, or the error of the part that is cut. */
  lemma TruncatedPage(flags: Byte, granule: nat, pageNo: nat, packets: seq<Packet>, cut: nat, skipped: nat)
    requires |Segments(packets)| <= 255
    requires cut < |Page(flags, granule, pageNo, Segments(packets), Payload(packets))|
    ensures var data := Page(flags, granule, pageNo, Segments(packets), Payload(packets))[..cut];
            ReadStream(data, skipped) ==
              if cut < 27 then Ok([])
              else if cut < 27 + |Segments(packets)| then Err(ShortSegmentTable)
              else Err(ShortPayload)
  {
    var segments, payload := Segments(packets), Payload(packets);
    var page := Page(flags, granule, pageNo, segments, payload);
    var head := Head(flags, granule, pageNo, segments, payload);
    SegmentsTotal(packets);
    Layout(head, segments, payload, []);
    hide Head, Total, Split, Page, Frame, Segments, Payload, ReadStream;
    assert page + [] == page;
    ReadShort(page[..cut], skipped);
    if cut >= 27 {
      assert page[..cut][..4] == CAPTURE && page[..cut][26] == page[26];
      assert cut >= 27 + |segments| ==> page[..cut][27..27 + |segments|] == segments;
    }
  }

  /** Anything of at least a header's length that does not open with the capture pattern is refused. */
  lemma ForeignData(data: seq<Byte>, skipped: nat)
    requires |data| >= 27 && !(data[0] == 0x4F && data[1] == 0x67 && data[2] == 0x67 && data[3] == 0x53)
    ensures ReadStream(data, skipped) == Err(BadSignature)
  {
  }
}
