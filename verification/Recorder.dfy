/**
 The call recorder (internal/calling/recorder.go): buffers Opus packets, writes them as
 OGG pages of 48 packets, and finishes the file on Stop.

 `State` and the functions on it specify the recorder; class `CallRecorder` is the code,
 proved against them. A file write either succeeds as a whole or fails; which of the two
 is an input (`ok`).
 */
module Recorder {
  import opened OggFormat
  import Crc

  const SAMPLES_PER_FRAME := 960
  const MAX_PAGE_PACKETS := 48
  const BOS: Byte := 2
  const EOS: Byte := 4
  const U64 := 0x1_0000_0000_0000_0000
  const U32 := 0x1_0000_0000

  // ----- Header pages (sections 5.1 and 5.2 of RFC 7845) -----

  /** "OpusHead": version 1, mono, no pre-skip, 48 kHz, no gain, mapping family 0. */
  const OPUS_HEAD: Packet :=
    [0x4F, 0x70, 0x75, 0x73, 0x48, 0x65, 0x61, 0x64, 1, 1] + LittleEndian(0, 2) + LittleEndian(48000, 4)
    + LittleEndian(0, 2) + [0]

  /** "whatomate" */
  const VENDOR: Packet := [0x77, 0x68, 0x61, 0x74, 0x6F, 0x6D, 0x61, 0x74, 0x65]

  /** "OpusTags": the vendor string and no comments. */
  const OPUS_TAGS: Packet :=
    [0x4F, 0x70, 0x75, 0x73, 0x54, 0x61, 0x67, 0x73] + LittleEndian(|VENDOR|, 4) + VENDOR + LittleEndian(0, 4)

  /** A header page carries one packet and granule position 0. */
  function HeaderPage(payload: Packet, flags: Byte, pageNo: nat): seq<Byte> {
    Page(flags, 0, pageNo, Lacing(|payload|), payload)
  }

  const HEADERS: seq<Byte> := HeaderPage(OPUS_HEAD, BOS, 0) + HeaderPage(OPUS_TAGS, 0, 1)

  // ----- Specification -----

  datatype State = State(
    file: seq<Byte>,
    granule: nat,
    pageNo: nat,
    count: nat,
    stopped: bool,
    failed: bool,
    buffer: seq<Packet>)

  const FRESH: State := State(HEADERS, 0, 2, 0, false, false, [])

  /** The page that flushing would write. */
  function NextPageRec(s: State, last: bool): PageRec {
    PageRec(if last then EOS else 0, (s.granule + |s.buffer| * SAMPLES_PER_FRAME) % U64, s.pageNo, s.buffer)
  }

  function Flush(s: State, last: bool, ok: bool): State {
    if s.buffer == [] then s
    else
      var page := NextPageRec(s, last);
      if ok then
        s.(file := s.file + page.Bytes(), granule := page.granule, pageNo := (s.pageNo + 1) % U32, buffer := [])
      else
        s.(granule := page.granule, failed := true)
  }

  function Accept(s: State, p: Packet): State { s.(buffer := s.buffer + [p], count := s.count + 1) }

  function AfterWrite(s: State, p: Packet, ok: bool): State {
    if s.stopped then s
    else if |s.buffer| + 1 >= MAX_PAGE_PACKETS then Flush(Accept(s, p), false, ok)
    else Accept(s, p)
  }

  function AfterStop(s: State, ok: bool): State {
    if s.stopped then s else Flush(s.(stopped := true), true, ok)
  }

  // ----- Runs, with the pages they put in the file -----

  datatype PageRec = PageRec(flags: Byte, granule: nat, pageNo: nat, packets: seq<Packet>) {
    function Bytes(): seq<Byte> { Page(flags, granule, pageNo, Segments(packets), Payload(packets)) }
  }

  datatype Op = Write(packet: Packet, ok: bool) | Close(ok: bool)

  /** `pages` are the pages written so far; `attempted` counts packets over all write attempts. */
  datatype Log = Log(s: State, pages: seq<PageRec>, attempted: nat)

  function Before(s: State, op: Op): State {
    match op
    case Write(p, _) => Accept(s, p)
    case Close(_) => s.(stopped := true)
  }

  predicate Flushes(s: State, op: Op) {
    && !s.stopped
    && match op
       case Write(_, _) => |s.buffer| + 1 >= MAX_PAGE_PACKETS
       case Close(_) => s.buffer != []
  }

  function Step(l: Log, op: Op): Log {
    var s' := match op case Write(p, ok) => AfterWrite(l.s, p, ok) case Close(ok) => AfterStop(l.s, ok);
    if Flushes(l.s, op) then
      var b := Before(l.s, op);
      Log(s', if op.ok then l.pages + [NextPageRec(b, op.Close?)] else l.pages, l.attempted + |b.buffer|)
    else
      Log(s', l.pages, l.attempted)
  }

  function Run(ops: seq<Op>): Log {
    if ops == [] then Log(FRESH, [], 0) else Step(Run(ops[..|ops| - 1]), ops[|ops| - 1])
  }

  /** Packets handed over before the first Stop, in order. */
  function Accepted(ops: seq<Op>): seq<Packet> {
    if ops == [] then []
    else
      var last := ops[|ops| - 1];
      var before := Accepted(ops[..|ops| - 1]);
      if last.Write? && !Closed(ops[..|ops| - 1]) then before + [last.packet] else before
  }

  predicate Closed(ops: seq<Op>) { exists i :: 0 <= i < |ops| && ops[i].Close? }

  predicate AllOk(ops: seq<Op>) { forall i :: 0 <= i < |ops| ==> ops[i].ok }

  function Encode(pages: seq<PageRec>): seq<Byte> {
    if pages == [] then [] else pages[0].Bytes() + Encode(pages[1..])
  }

  function Packets(pages: seq<PageRec>): seq<Packet> {
    if pages == [] then [] else pages[0].packets + Packets(pages[1..])
  }

  lemma {:induction false} EncodeSnoc(pages: seq<PageRec>, p: PageRec)
    ensures Encode(pages + [p]) == Encode(pages) + p.Bytes()
    ensures Packets(pages + [p]) == Packets(pages) + p.packets
  {
    hide OggFormat.Page;
    if pages == [] {
      assert pages + [p] == [p];
    } else {
      assert (pages + [p])[1..] == pages[1..] + [p];
      EncodeSnoc(pages[1..], p);
    }
  }

  /** What one call changes, apart from the file's bytes. */
  lemma StepFacts(l: Log, op: Op)
    ensures var l', b := Step(l, op), Before(l.s, op);
            var page := NextPageRec(b, op.Close?);
            && l'.s.stopped == (l.s.stopped || op.Close?)
            && l'.s.count == (if op.Write? && !l.s.stopped then l.s.count + 1 else l.s.count)
            && (!Flushes(l.s, op) ==>
                  && l'.pages == l.pages && l'.attempted == l.attempted && l'.s.granule == l.s.granule
                  && l'.s.pageNo == l.s.pageNo && l'.s.failed == l.s.failed
                  && l'.s.buffer == (if op.Write? && !l.s.stopped then l.s.buffer + [op.packet] else l.s.buffer))
            && (Flushes(l.s, op) ==>
                  && l'.attempted == l.attempted + |b.buffer| && l'.s.granule == page.granule && b.buffer != [])
            && (Flushes(l.s, op) && op.ok ==>
                  && l'.pages == l.pages + [page] && l'.s.pageNo == (l.s.pageNo + 1) % U32
                  && l'.s.failed == l.s.failed && l'.s.buffer == [])
            && (Flushes(l.s, op) && !op.ok ==>
                  && l'.pages == l.pages && l'.s.pageNo == l.s.pageNo && l'.s.failed && l'.s.buffer == b.buffer)
  {
    hide OggFormat.Page;
  }

  // ----- Conservation, whatever fails -----

  lemma ClosedSnoc(ops: seq<Op>)
    requires ops != []
    ensures Closed(ops) == (Closed(ops[..|ops| - 1]) || ops[|ops| - 1].Close?)
  {
    var prev, op := ops[..|ops| - 1], ops[|ops| - 1];
    if Closed(prev) { var i :| 0 <= i < |prev| && prev[i].Close?; assert ops[i].Close?; }
    if Closed(ops) { var i :| 0 <= i < |ops| && ops[i].Close?; assert i < |prev| ==> prev[i].Close?; }
  }

  lemma {:induction false} StoppedIffClosed(ops: seq<Op>)
    ensures Run(ops).s.stopped == Closed(ops)
  {
    if ops != [] {
      StoppedIffClosed(ops[..|ops| - 1]);
      ClosedSnoc(ops);
    }
  }

  /** The file holds the two header pages and then exactly the recorded pages. */
  lemma {:induction false} FileIsPages(ops: seq<Op>)
    ensures Run(ops).s.file == HEADERS + Encode(Run(ops).pages)
  {
    if ops == [] {
      assert HEADERS + [] == HEADERS;
    } else {
      var l, op := Run(ops[..|ops| - 1]), ops[|ops| - 1];
      FileIsPages(ops[..|ops| - 1]);
      if Flushes(l.s, op) && op.ok {
        var page := NextPageRec(Before(l.s, op), op.Close?);
        assert Run(ops).s.file == l.s.file + page.Bytes();
        EncodeSnoc(l.pages, page);
        ConcatBytes(HEADERS, Encode(l.pages), page.Bytes());
      }
    }
  }

  lemma ConcatBytes(a: seq<Byte>, b: seq<Byte>, c: seq<Byte>)
    ensures a + b + c == a + (b + c)
  {}

  lemma ConcatPackets(a: seq<Packet>, b: seq<Packet>, c: seq<Packet>)
    ensures a + b + c == a + (b + c)
  {}

  lemma WrapAdd64(a: nat, b: nat)
    ensures (a % U64 + b) % U64 == (a + b) % U64
  {
  }

  lemma WrapAdd32(a: nat, b: nat)
    ensures (a % U32 + b) % U32 == (a + b) % U32
  {
  }

  /** Pages are numbered consecutively, continuing after header pages 0 and 1. */
  lemma {:induction false} PagesNumbered(ops: seq<Op>)
    ensures Run(ops).s.pageNo == (2 + |Run(ops).pages|) % U32
    ensures forall i :: 0 <= i < |Run(ops).pages| ==> Run(ops).pages[i].pageNo == (2 + i) % U32
  {
    hide Step;
    if ops != [] {
      PagesNumbered(ops[..|ops| - 1]);
      WrapAdd32(2 + |Run(ops[..|ops| - 1]).pages|, 1);
      StepFacts(Run(ops[..|ops| - 1]), ops[|ops| - 1]);
    }
  }

  /**
   No packet is lost, duplicated or reordered, whichever writes fail: the packets in the
   file followed by the packets still buffered are the packets accepted.
   */
  lemma {:induction false} Conservation(ops: seq<Op>)
    ensures Packets(Run(ops).pages) + Run(ops).s.buffer == Accepted(ops)
    ensures Run(ops).s.count == |Accepted(ops)|
  {
    hide OggFormat.Page;
    hide Step;
    if ops != [] {
      var prev, op := ops[..|ops| - 1], ops[|ops| - 1];
      var l := Run(prev);
      StepFacts(l, op);
      Conservation(prev);
      StoppedIffClosed(prev);
      if op.Write? { ConcatPackets(Packets(l.pages), l.s.buffer, [op.packet]); }
      if Flushes(l.s, op) {
        EncodeSnoc(l.pages, NextPageRec(Before(l.s, op), op.Close?));
      }
    }
  }

  // ----- Reading the file back -----

  /** Every page's segment count fits its one-byte field. */
  predicate PagesFit(pages: seq<PageRec>) {
    forall i :: 0 <= i < |pages| ==> |Segments(pages[i].packets)| <= 255
  }

  lemma {:induction false} NonEmptyConcat(a: seq<Packet>, b: seq<Packet>)
    ensures NonEmpty(a + b) == NonEmpty(a) + NonEmpty(b)
  {
    if a == [] {
      assert a + b == b;
    } else {
      assert (a + b)[1..] == a[1..] + b;
      NonEmptyConcat(a[1..], b);
    }
  }

  lemma {:induction false} ReadPages(pages: seq<PageRec>)
    requires PagesFit(pages)
    ensures ReadStream(Encode(pages), 2) == Ok(NonEmpty(Packets(pages)))
  {
    hide OggFormat.Page;
    if pages != [] {
      var p := pages[0];
      ReadPages(pages[1..]);
      ReadPage(p.flags, p.granule, p.pageNo, p.packets, Encode(pages[1..]), 2);
      NonEmptyConcat(p.packets, Packets(pages[1..]));
    }
  }

  lemma SkipHeader(payload: Packet, flags: Byte, pageNo: nat, rest: seq<Byte>, skipped: nat)
    requires |payload| < 255 && skipped < 2
    ensures ReadStream(HeaderPage(payload, flags, pageNo) + rest, skipped) == ReadStream(rest, skipped + 1)
  {
    hide OggFormat.Page;
    assert Segments([payload]) == Lacing(|payload|) + [] == Lacing(|payload|);
    assert Payload([payload]) == payload + [] == payload;
    ReadPage(flags, 0, pageNo, [payload], rest, skipped);
  }

  lemma SkipHeaders(rest: seq<Byte>)
    ensures ReadStream(HEADERS + rest, 0) == ReadStream(rest, 2)
  {
    hide OggFormat.Page;
    var first, second := HeaderPage(OPUS_HEAD, BOS, 0), HeaderPage(OPUS_TAGS, 0, 1);
    ConcatBytes(first, second, rest);
    SkipHeader(OPUS_HEAD, BOS, 0, second + rest, 0);
    SkipHeader(OPUS_TAGS, 0, 1, rest, 1);
  }

  /** Whatever was called and whichever writes failed, the file reads back as the packets written to it. */
  lemma FileReadsBack(ops: seq<Op>)
    requires PagesFit(Run(ops).pages)
    ensures ReadStream(Run(ops).s.file, 0) == Ok(NonEmpty(Packets(Run(ops).pages)))
  {
    hide OggFormat.Page;
    FileIsPages(ops);
    SkipHeaders(Encode(Run(ops).pages));
    ReadPages(Run(ops).pages);
  }

  // ----- When every write succeeds -----

  predicate FullPage(p: PageRec) { |p.packets| == MAX_PAGE_PACKETS && p.flags == 0 }

  predicate FinalPage(p: PageRec) { 0 < |p.packets| < MAX_PAGE_PACKETS && p.flags == EOS }

  /** Full pages; after Stop possibly one shorter page carrying the end-of-stream flag. */
  predicate WellPaged(l: Log) {
    && (forall i :: 0 <= i < |l.pages| - 1 ==> FullPage(l.pages[i]))
    && (l.pages != [] ==>
          FullPage(l.pages[|l.pages| - 1]) || (l.s.stopped && FinalPage(l.pages[|l.pages| - 1])))
  }

  lemma {:induction false} PagedWhenOk(ops: seq<Op>)
    requires AllOk(ops)
    ensures !Run(ops).s.failed && |Run(ops).s.buffer| < MAX_PAGE_PACKETS
    ensures Run(ops).s.stopped ==> Run(ops).s.buffer == []
    ensures WellPaged(Run(ops))
    ensures !Run(ops).s.stopped ==> forall p :: p in Run(ops).pages ==> FullPage(p)
  {
    hide Step;
    if ops != [] {
      var prev, op := ops[..|ops| - 1], ops[|ops| - 1];
      assert forall i :: 0 <= i < |prev| ==> prev[i] == ops[i];
      PagedWhenOk(prev);
      var l := Run(prev);
      StepFacts(l, op);
      if l.pages != [] && !l.s.stopped { assert l.pages[|l.pages| - 1] in l.pages; }
    }
  }

  function Chunk(packets: seq<Packet>, k: nat): seq<Packet>
    requires k * MAX_PAGE_PACKETS <= |packets|
  {
    if (k + 1) * MAX_PAGE_PACKETS <= |packets| then packets[k * MAX_PAGE_PACKETS..(k + 1) * MAX_PAGE_PACKETS]
    else packets[k * MAX_PAGE_PACKETS..]
  }

  /** In terms of the packets alone: every group of 48 needs at most 255 segments. */
  ghost predicate ChunksFit(packets: seq<Packet>) {
    forall k: nat :: k * MAX_PAGE_PACKETS < |packets| ==> |Segments(Chunk(packets, k))| <= 255
  }

  lemma {:induction false} PageIsChunk(pages: seq<PageRec>, k: nat)
    requires forall i :: 0 <= i < |pages| - 1 ==> FullPage(pages[i])
    requires pages != [] ==> 0 < |pages[|pages| - 1].packets| <= MAX_PAGE_PACKETS
    requires k < |pages|
    ensures k * MAX_PAGE_PACKETS < |Packets(pages)|
    ensures Chunk(Packets(pages), k) == pages[k].packets
  {
    var rest := pages[1..];
    if rest != [] { assert rest[|rest| - 1] == pages[|pages| - 1]; }
    if k == 0 {
      if rest == [] {
        assert Packets(pages) == pages[0].packets + [];
      }
    } else {
      assert forall i :: 0 <= i < |rest| ==> rest[i] == pages[i + 1];
      PageIsChunk(rest, k - 1);
      assert rest[k - 1] == pages[k];
      ChunkShift(pages[0].packets, Packets(rest), k - 1);
    }
  }

  lemma ChunkShift(a: seq<Packet>, b: seq<Packet>, k: nat)
    requires |a| == MAX_PAGE_PACKETS && k * MAX_PAGE_PACKETS <= |b|
    ensures Chunk(a + b, k + 1) == Chunk(b, k)
  {}

  lemma {:induction false} NonEmptyIdentity(packets: seq<Packet>)
    ensures NonEmpty(packets) == packets <==> forall i :: 0 <= i < |packets| ==> packets[i] != []
    ensures |NonEmpty(packets)| <= |packets|
  {
    if packets != [] {
      NonEmptyIdentity(packets[1..]);
      if packets[0] == [] {
        assert NonEmpty(packets) == NonEmpty(packets[1..]);
      } else {
        assert NonEmpty(packets) == packets <==> NonEmpty(packets[1..]) == packets[1..] by {
          assert packets == [packets[0]] + packets[1..];
          assert NonEmpty(packets) == [packets[0]] + NonEmpty(packets[1..]);
          assert NonEmpty(packets)[1..] == NonEmpty(packets[1..]);
        }
        assert forall i :: 0 < i < |packets| ==> packets[i] == packets[1..][i - 1];
        assert forall i :: 0 <= i < |packets[1..]| ==> packets[1..][i] == packets[i + 1];
      }
    }
  }

  /**
   Round trip. When every write succeeds and Stop has been called, reading the file returns
   exactly the accepted packets, in order, if and only if none of them was empty. Lengths
   that are multiples of 255 are included.
   */
  lemma RoundTrip(ops: seq<Op>)
    requires AllOk(ops) && Closed(ops) && ChunksFit(Accepted(ops))
    ensures ReadStream(Run(ops).s.file, 0) == Ok(NonEmpty(Accepted(ops)))
    ensures ReadStream(Run(ops).s.file, 0) == Ok(Accepted(ops)) <==>
            forall i :: 0 <= i < |Accepted(ops)| ==> Accepted(ops)[i] != []
  {
    hide OggFormat.Page;
    var pages := Run(ops).pages;
    PagedWhenOk(ops);
    StoppedIffClosed(ops);
    Conservation(ops);
    assert Packets(pages) == Accepted(ops);
    forall k | 0 <= k < |pages| ensures |Segments(pages[k].packets)| <= 255 {
      PageIsChunk(pages, k);
    }
    FileReadsBack(ops);
    NonEmptyIdentity(Accepted(ops));
  }

  lemma {:induction false} SegmentsBound(packets: seq<Packet>)
    requires forall i :: 0 <= i < |packets| ==> |packets[i]| <= 1274
    ensures |Segments(packets)| <= 5 * |packets|
  {
    if packets != [] { SegmentsBound(packets[1..]); }
  }

  /** Packets of at most 1274 bytes always fit, so the round trip applies to them. */
  lemma SmallPacketsFit(packets: seq<Packet>)
    requires forall i :: 0 <= i < |packets| ==> |packets[i]| <= 1274
    ensures ChunksFit(packets)
  {
    forall k: nat | k * MAX_PAGE_PACKETS < |packets| ensures |Segments(Chunk(packets, k))| <= 255 {
      SegmentsBound(Chunk(packets, k));
    }
  }

  // ----- Pages the reader cannot follow -----

  lemma {:induction false} ReadPagesThen(pages: seq<PageRec>, rest: seq<Byte>)
    requires PagesFit(pages)
    ensures ReadStream(Encode(pages) + rest, 2) == Prepend(NonEmpty(Packets(pages)), ReadStream(rest, 2))
  {
    hide OggFormat.Page;
    if pages == [] {
      assert Encode(pages) + rest == rest;
      PrependConcat([], [], ReadStream(rest, 2));
    } else {
      var p, more := pages[0], pages[1..];
      ReadPagesThen(more, rest);
      ReadPage(p.flags, p.granule, p.pageNo, p.packets, Encode(more) + rest, 2);
      assert Encode(pages) + rest == p.Bytes() + (Encode(more) + rest);
      NonEmptyConcat(p.packets, Packets(more));
      PrependConcat(NonEmpty(p.packets), NonEmpty(Packets(more)), ReadStream(rest, 2));
    }
  }

  lemma {:induction false} EncodeConcat(a: seq<PageRec>, b: seq<PageRec>)
    ensures Encode(a + b) == Encode(a) + Encode(b)
  {
    hide OggFormat.Page;
    if a == [] {
      assert a + b == b;
    } else {
      assert (a + b)[1..] == a[1..] + b;
      EncodeConcat(a[1..], b);
      ConcatBytes(a[0].Bytes(), Encode(a[1..]), Encode(b));
    }
  }

  /** The count byte of this page is 0 although it has segments, the first of them full. */
  predicate CountWraps(packets: seq<Packet>) {
    packets != [] && |packets[0]| >= 255 && |Segments(packets)| % 256 == 0
  }

  lemma {:induction false} SomeSegments(packets: seq<Packet>)
    requires packets != []
    ensures |Segments(packets)| > 0
  {
  }

  /** One such page spoils the whole file, whatever comes after it. */
  lemma WrappedPageSpoilsFile(ops: seq<Op>, k: nat)
    requires k < |Run(ops).pages| && PagesFit(Run(ops).pages[..k]) && CountWraps(Run(ops).pages[k].packets)
    ensures ReadStream(Run(ops).s.file, 0) == Err(BadSignature)
  {
    hide OggFormat.Page, Run, PageRec.Bytes;
    FileIsPages(ops);
    var pages := Run(ops).pages;
    hide HEADERS;
    SkipHeaders(Encode(pages));
    SplitPages(pages, k);
    ReadPagesThen(pages[..k], pages[k].Bytes() + Encode(pages[k + 1..]));
    WrappedPageFails(pages[k], Encode(pages[k + 1..]));
  }

  lemma EncodeCons(p: PageRec, after: seq<PageRec>)
    ensures Encode([p] + after) == p.Bytes() + Encode(after)
  {
    hide PageRec.Bytes;
    assert ([p] + after)[1..] == after;
  }

  lemma SplitPages(pages: seq<PageRec>, k: nat)
    requires k < |pages|
    ensures Encode(pages) == Encode(pages[..k]) + (pages[k].Bytes() + Encode(pages[k + 1..]))
  {
    hide PageRec.Bytes, Encode;
    var before, p, after := pages[..k], pages[k], pages[k + 1..];
    SeqSplit(pages, k);
    EncodeConcat(before, [p] + after);
    EncodeCons(p, after);
  }

  lemma SeqSplit(pages: seq<PageRec>, k: nat)
    requires k < |pages|
    ensures pages == pages[..k] + ([pages[k]] + pages[k + 1..])
  {
  }

  lemma WrappedPageFails(p: PageRec, rest: seq<Byte>)
    requires CountWraps(p.packets)
    ensures ReadStream(p.Bytes() + rest, 2) == Err(BadSignature)
  {
    hide OggFormat.Page;
    SomeSegments(p.packets);
    WrappedCountIsFatal(p.flags, p.granule, p.pageNo, p.packets, rest, 2);
  }

  /**
   In terms of the packets accepted: with successful writes, if the first group of 48 that
   does not fit wraps its count to 0 and opens with a packet of at least 255 bytes, the
   finished file cannot be read at all.
   */
  lemma WrappedGroupSpoilsFile(ops: seq<Op>, k: nat)
    requires AllOk(ops) && Closed(ops) && k * MAX_PAGE_PACKETS < |Accepted(ops)|
    requires forall j: nat :: j < k ==> j * MAX_PAGE_PACKETS < |Accepted(ops)| && |Segments(Chunk(Accepted(ops), j))| <= 255
    requires CountWraps(Chunk(Accepted(ops), k))
    ensures ReadStream(Run(ops).s.file, 0) == Err(BadSignature)
  {
    hide CountWraps, OggFormat.Page;
    var pages := Run(ops).pages;
    PagedWhenOk(ops);
    StoppedIffClosed(ops);
    Conservation(ops);
    assert Packets(pages) + [] == Packets(pages);
    PagesCover(pages, k);
    forall j | 0 <= j < k ensures |Segments(pages[j].packets)| <= 255 {
      PageIsChunk(pages, j);
    }
    PageIsChunk(pages, k);
    WrappedPageSpoilsFile(ops, k);
  }

  lemma {:induction false} PagesCover(pages: seq<PageRec>, k: nat)
    requires forall i :: 0 <= i < |pages| ==> |pages[i].packets| <= MAX_PAGE_PACKETS
    requires k * MAX_PAGE_PACKETS < |Packets(pages)|
    ensures k < |pages|
  {
    if pages != [] && k > 0 {
      assert forall i :: 0 <= i < |pages[1..]| ==> pages[1..][i] == pages[i + 1];
      PagesCover(pages[1..], k - 1);
    }
  }

  function Zeros(n: nat): (p: Packet)
    ensures |p| == n
  {
    seq(n, _ => 0)
  }

  function Copies(p: Packet, n: nat): seq<Packet> { if n == 0 then [] else [p] + Copies(p, n - 1) }

  lemma SegmentsCons(p: Packet, more: seq<Packet>)
    ensures |Segments([p] + more)| == |p| / 255 + 1 + |Segments(more)|
  {
    hide Lacing;
    assert ([p] + more)[1..] == more;
  }

  lemma {:induction false} CopiesSegments(p: Packet, n: nat, more: seq<Packet>)
    ensures |Segments(Copies(p, n) + more)| == n * (|p| / 255 + 1) + |Segments(more)|
    ensures |Copies(p, n)| == n && (n > 0 ==> Copies(p, n)[0] == p)
  {
    hide Segments;
    if n == 0 {
      assert Copies(p, n) + more == more;
    } else {
      var c := |p| / 255 + 1;
      CopiesSegments(p, n - 1, more);
      SegmentsCons(p, Copies(p, n - 1) + more);
      assert Copies(p, n) + more == [p] + (Copies(p, n - 1) + more);
      assert c + (n - 1) * c == n * c;
    }
  }

  function Writes(packets: seq<Packet>): seq<Op> {
    if packets == [] then [] else Writes(packets[..|packets| - 1]) + [Write(packets[|packets| - 1], true)]
  }

  lemma OneMoreWrite(ops: seq<Op>, p: Packet)
    requires AllOk(ops) && !Closed(ops)
    ensures var more := ops + [Write(p, true)];
            AllOk(more) && !Closed(more) && Accepted(more) == Accepted(ops) + [p]
  {
    var more := ops + [Write(p, true)];
    assert more[..|more| - 1] == ops;
  }

  lemma {:induction false} WritesFacts(packets: seq<Packet>)
    ensures AllOk(Writes(packets)) && !Closed(Writes(packets)) && Accepted(Writes(packets)) == packets
  {
    if packets != [] {
      var n := |packets| - 1;
      WritesFacts(packets[..n]);
      assert packets == packets[..n] + [packets[n]];
      OneMoreWrite(Writes(packets[..n]), packets[n]);
    }
  }

  /** 16 packets of 1275 bytes and 32 of 1274: one page of 256 segments. */
  function OversizedPackets(): seq<Packet> { Copies(Zeros(1275), 16) + Copies(Zeros(1274), 32) }

  function OversizedRun(): seq<Op> { Writes(OversizedPackets()) + [Close(true)] }

  /** 48 accepted packets, every write successful, and a file that does not read back. */
  lemma OversizedPageDoesNotReadBack()
    ensures AllOk(OversizedRun()) && Closed(OversizedRun()) && Accepted(OversizedRun()) == OversizedPackets()
    ensures ReadStream(Run(OversizedRun()).s.file, 0) == Err(BadSignature)
  {
    OversizedWraps();
    hide OversizedPackets, Run, CountWraps, Writes, Accepted, ReadStream;
    var packets, ops := OversizedPackets(), OversizedRun();
    WritesFacts(packets);
    ClosedRun(packets);
    assert Chunk(packets, 0) == packets;
    WrappedGroupSpoilsFile(ops, 0);
  }

  lemma ClosedRun(packets: seq<Packet>)
    ensures var ops := Writes(packets) + [Close(true)];
            AllOk(ops) && Closed(ops) && Accepted(ops) == packets
  {
    WritesFacts(packets);
    hide Writes;
    var ops := Writes(packets) + [Close(true)];
    assert ops[..|ops| - 1] == Writes(packets);
    assert ops[|ops| - 1].Close?;
  }

  lemma OversizedWraps()
    ensures CountWraps(OversizedPackets()) && |OversizedPackets()| == MAX_PAGE_PACKETS
  {
    hide Copies, Zeros;
    MixedWraps(Zeros(1275), Zeros(1274), 16, 32);
  }

  lemma MixedWraps(big: Packet, small: Packet, m: nat, n: nat)
    requires m > 0 && |big| >= 255 && (m * (|big| / 255 + 1) + n * (|small| / 255 + 1)) % 256 == 0
    ensures CountWraps(Copies(big, m) + Copies(small, n)) && |Copies(big, m) + Copies(small, n)| == m + n
  {
    CopiesSegments(small, n, []);
    CopiesSegments(big, m, Copies(small, n));
    assert Copies(small, n) + [] == Copies(small, n);
  }

  /** An end-of-stream page exists exactly when the packet count is not a multiple of 48. */
  lemma EndOfStreamMark(ops: seq<Op>)
    requires AllOk(ops) && Closed(ops)
    ensures (exists p :: p in Run(ops).pages && p.flags == EOS) <==> |Accepted(ops)| % MAX_PAGE_PACKETS != 0
  {
    PagedWhenOk(ops);
    StoppedIffClosed(ops);
    Conservation(ops);
    MarkIffPartial(Run(ops).pages);
  }

  lemma MarkIffPartial(pages: seq<PageRec>)
    requires forall i :: 0 <= i < |pages| - 1 ==> FullPage(pages[i])
    requires pages != [] ==> FullPage(pages[|pages| - 1]) || FinalPage(pages[|pages| - 1])
    ensures (exists p :: p in pages && p.flags == EOS) <==> |Packets(pages)| % MAX_PAGE_PACKETS != 0
  {
    hide OggFormat.Page, PageRec.Bytes;
    if pages != [] {
      var n := |pages| - 1;
      FullPagesLength(pages[..n]);
      assert pages == pages[..n] + [pages[n]];
      EncodeSnoc(pages[..n], pages[n]);
      PartialPage(n, |pages[n].packets|);
      assert pages[n] in pages;
    }
  }

  lemma PartialPage(n: nat, k: nat)
    requires 0 < k <= MAX_PAGE_PACKETS
    ensures (n * MAX_PAGE_PACKETS + k) % MAX_PAGE_PACKETS != 0 <==> k < MAX_PAGE_PACKETS
  {
  }

  lemma {:induction false} FullPagesLength(pages: seq<PageRec>)
    requires forall i :: 0 <= i < |pages| ==> FullPage(pages[i])
    ensures |Packets(pages)| == |pages| * MAX_PAGE_PACKETS
  {
    if pages != [] { FullPagesLength(pages[1..]); }
  }

  // ----- The granule position -----

  /**
   The granule position counts 960 samples per packet over every attempt, successful or not.
   It therefore agrees with the packets in the file exactly while no write has failed.
   */
  lemma {:induction false} GranulePosition(ops: seq<Op>)
    ensures Run(ops).s.granule == Run(ops).attempted * SAMPLES_PER_FRAME % U64
    ensures Run(ops).attempted >= |Packets(Run(ops).pages)|
    ensures Run(ops).attempted == |Packets(Run(ops).pages)| <==> !Run(ops).s.failed
  {
    hide OggFormat.Page;
    hide Step;
    if ops != [] {
      var prev, op := ops[..|ops| - 1], ops[|ops| - 1];
      var l := Run(prev);
      GranulePosition(prev);
      StepFacts(l, op);
      if Flushes(l.s, op) {
        EncodeSnoc(l.pages, NextPageRec(Before(l.s, op), op.Close?));
        WrapAdd64(l.attempted * SAMPLES_PER_FRAME, |Before(l.s, op).buffer| * SAMPLES_PER_FRAME);
      }
    }
  }

  /** The page's granule position is 960 times the packets up to and including it. */
  predicate GranuleFits(pages: seq<PageRec>, i: nat)
    requires i < |pages|
  {
    pages[i].granule == |Packets(pages[..i + 1])| * SAMPLES_PER_FRAME % U64
  }

  lemma GranuleFitsSnoc(pages: seq<PageRec>, p: PageRec, i: nat)
    requires i < |pages|
    ensures GranuleFits(pages + [p], i) == GranuleFits(pages, i)
  {
    assert (pages + [p])[..i + 1] == pages[..i + 1];
  }

  lemma {:induction false} PageGranules(ops: seq<Op>)
    requires AllOk(ops)
    ensures forall i :: 0 <= i < |Run(ops).pages| ==> GranuleFits(Run(ops).pages, i)
  {
    hide OggFormat.Page;
    hide Step;
    if ops != [] {
      var prev, op := ops[..|ops| - 1], ops[|ops| - 1];
      var l := Run(prev);
      assert forall i :: 0 <= i < |prev| ==> prev[i] == ops[i];
      StepFacts(l, op);
      PageGranules(prev);
      PagedWhenOk(prev);
      GranulePosition(prev);
      if Flushes(l.s, op) {
        assert op.ok && Accumulated(l);
        GranulesSnoc(l, Before(l.s, op), op.Close?);
      }
    }
  }

  predicate Accumulated(l: Log) { l.s.granule == |Packets(l.pages)| * SAMPLES_PER_FRAME % U64 }

  lemma GranulesSnoc(l: Log, b: State, last: bool)
    requires Accumulated(l) && b.granule == l.s.granule
    requires forall i :: 0 <= i < |l.pages| ==> GranuleFits(l.pages, i)
    ensures var pages := l.pages + [NextPageRec(b, last)];
            forall i :: 0 <= i < |pages| ==> GranuleFits(pages, i)
  {
    hide OggFormat.Page;
    var page := NextPageRec(b, last);
    var pages := l.pages + [page];
    EncodeSnoc(l.pages, page);
    WrapAdd64(|Packets(l.pages)| * SAMPLES_PER_FRAME, |b.buffer| * SAMPLES_PER_FRAME);
    forall i | 0 <= i < |pages| ensures GranuleFits(pages, i) {
      if i < |l.pages| {
        GranuleFitsSnoc(l.pages, page, i);
      } else {
        assert pages[..i + 1] == pages;
      }
    }
  }

  // ----- The code -----

  class CallRecorder {
    const table: seq<bv32>
    var file: seq<Byte>
    var granulePos: nat
    var pageSeqNo: nat
    var packetCount: nat
    var stopped: bool
    var writeErr: bool
    var pageBuf: seq<Packet>

    ghost predicate Valid()
      reads this
    {
      && Crc.IsTable(table)
      && granulePos < U64 && pageSeqNo < U32
    }

    ghost function View(): State
      reads this
    {
      State(file, granulePos, pageSeqNo, packetCount, stopped, writeErr, pageBuf)
    }

    /** A recorder whose file holds the two header pages. */
    constructor (table: seq<bv32>)
      requires Crc.IsTable(table)
      ensures Valid() && View() == FRESH
    {
      this.table := table;
      granulePos, packetCount, stopped, writeErr, pageBuf := 0, 0, false, false, [];
      new;
      hide OggFormat.PageBytes;
      hide OggFormat.Head;
      hide OggFormat.Frame;
      var headSegments := LacePacket(|OPUS_HEAD|);
      var first := BuildPage(table, BOS, 0, 0, headSegments, OPUS_HEAD);
      var tagsSegments := LacePacket(|OPUS_TAGS|);
      var second := BuildPage(table, 0, 0, 1, tagsSegments, OPUS_TAGS);
      file, pageSeqNo := first + second, 2;
    }

    /**
     NewCallRecorder: nothing is returned when the temporary file cannot be created or one of
     the two header pages cannot be written.
     */
    static method NewCallRecorder(table: seq<bv32>, fileOk: bool, headOk: bool, tagsOk: bool) returns (r: CallRecorder?)
      requires Crc.IsTable(table)
      ensures r == null <==> !(fileOk && headOk && tagsOk)
      ensures r != null ==> fresh(r) && r.Valid() && r.View() == FRESH
    {
      if !fileOk || !headOk || !tagsOk {
        return null;
      }
      r := new CallRecorder(table);
    }

    method WritePacket(opusData: Packet, ok: bool)
      requires Valid()
      modifies this
      ensures Valid() && View() == AfterWrite(old(View()), opusData, ok)
    {
      hide OggFormat.Page;
      if stopped {
        return;
      }
      pageBuf := pageBuf + [opusData];
      packetCount := packetCount + 1;
      if |pageBuf| >= MAX_PAGE_PACKETS {
        FlushPage(false, ok);
      }
    }

    method Stop(ok: bool) returns (count: nat, failed: bool)
      requires Valid()
      modifies this
      ensures Valid() && View() == AfterStop(old(View()), ok)
      ensures count == packetCount && failed == writeErr
    {
      hide OggFormat.Page;
      if !stopped {
        stopped := true;
        if |pageBuf| > 0 {
          FlushPage(true, ok);
        }
      }
      return packetCount, writeErr;
    }

    method FlushPage(lastPage: bool, ok: bool)
      requires Valid()
      modifies this
      ensures Valid() && View() == Flush(old(View()), lastPage, ok)
    {
      hide OggFormat.PageBytes;
      hide OggFormat.Page;
      if |pageBuf| == 0 {
        return;
      }
      var segTable := SegmentTable(pageBuf);
      granulePos := (granulePos + |pageBuf| * SAMPLES_PER_FRAME) % U64;
      var payload := Concatenate(pageBuf);
      var page := BuildPage(table, if lastPage then EOS else 0, granulePos, pageSeqNo, segTable, payload);
      if !ok {
        writeErr := true;
        return;
      }
      file := file + page;
      pageSeqNo := (pageSeqNo + 1) % U32;
      pageBuf := [];
    }
  }

  // ----- Building a page in a byte buffer -----

  /** Go's copy into buf[off:]. */
  method CopyInto(buf: array<Byte>, off: nat, data: seq<Byte>)
    requires off + |data| <= buf.Length
    modifies buf
    ensures buf[..off] == old(buf[..off])
    ensures buf[off..off + |data|] == data
    ensures buf[off + |data|..] == old(buf[off + |data|..])
  {
    for i := 0 to |data|
      invariant buf[..off] == old(buf[..off])
      invariant buf[off..off + i] == data[..i]
      invariant buf[off + |data|..] == old(buf[off + |data|..])
    {
      buf[off + i] := data[i];
      assert buf[off..off + i + 1] == buf[off..off + i] + [data[i]];
    }
  }

  /** binary.LittleEndian.PutUintN: `width` bytes of `v`, least significant first. */
  method PutUint(buf: array<Byte>, off: nat, v: nat, width: nat)
    requires off + width <= buf.Length
    modifies buf
    ensures buf[..off] == old(buf[..off])
    ensures buf[off..off + width] == LittleEndian(v, width)
    ensures buf[off + width..] == old(buf[off + width..])
  {
    var rest := v;
    for i := 0 to width
      invariant buf[..off] == old(buf[..off])
      invariant buf[off..off + i] + LittleEndian(rest, width - i) == LittleEndian(v, width)
      invariant buf[off + width..] == old(buf[off + width..])
    {
      ghost var done := buf[off..off + i];
      buf[off + i] := rest % 256;
      assert buf[off..off + i + 1] == done + [rest % 256];
      assert done + ([rest % 256] + LittleEndian(rest / 256, width - i - 1))
          == buf[off..off + i + 1] + LittleEndian(rest / 256, width - i - 1);
      rest := rest / 256;
    }
  }

  /** recorder.go:183-204 and 229-253: fills the page in place, then patches the checksum in. */
  method BuildPage(table: seq<bv32>, flags: Byte, granule: nat, pageNo: nat, segTable: seq<Byte>, payload: seq<Byte>)
    returns (page: seq<Byte>)
    requires Crc.IsTable(table)
    ensures page == Page(flags, granule, pageNo, segTable, payload)
    ensures granule < 0x1_0000_0000_0000_0000 && pageNo < 0x1_0000_0000 ==>
              PageBytes(page, flags, granule, pageNo, segTable, payload)
  {
    if granule < 0x1_0000_0000_0000_0000 && pageNo < 0x1_0000_0000 {
      PageHasBytes(flags, granule, pageNo, segTable, payload);
    }
    hide Crc.Remainder, PageBytes;
    var headerSize := PAGE_HEADER_LEN + |segTable|;
    var buf := new Byte[headerSize + |payload|](_ => 0);
    FillPreamble(buf, flags, granule, pageNo);
    ghost var preamble := Preamble(flags, granule, pageNo);
    FillBody(buf, segTable, payload);
    PutUint(buf, 22, 0, 4);
    assert LittleEndian(0, 4) == [0, 0, 0, 0];
    Assemble(buf[..], preamble, [0, 0, 0, 0], segTable, payload);
    var checksum := Crc.OggCrc32(Words(buf[..]), table);
    PutUint(buf, 22, checksum as nat, 4);
    Assemble(buf[..], preamble, Checksum(preamble, segTable, payload), segTable, payload);
    page := buf[..];
  }

  lemma Assemble(buf: seq<Byte>, preamble: seq<Byte>, field: seq<Byte>, segments: seq<Byte>, payload: seq<Byte>)
    requires |preamble| == 22 && |field| == 4 && |buf| == PAGE_HEADER_LEN + |segments| + |payload|
    requires buf[..22] == preamble && buf[22..26] == field
    requires buf[26..] == [|segments| % 256] + segments + payload
    ensures buf == Frame(preamble + field, segments, payload)
  {
    assert buf == buf[..22] + buf[22..26] + buf[26..];
  }

  method FillBody(buf: array<Byte>, segTable: seq<Byte>, payload: seq<Byte>)
    requires buf.Length == PAGE_HEADER_LEN + |segTable| + |payload|
    modifies buf
    ensures buf[..22] == old(buf[..22])
    ensures buf[26..] == [|segTable| % 256] + segTable + payload
  {
    var headerSize := PAGE_HEADER_LEN + |segTable|;
    ghost var preamble := buf[..22];
    buf[26] := |segTable| % 256;
    assert buf[..22] == preamble;
    ghost var head := buf[..PAGE_HEADER_LEN];
    CopyInto(buf, PAGE_HEADER_LEN, segTable);
    assert buf[..headerSize] == head + segTable;
    CopyInto(buf, headerSize, payload);
    assert buf[..] == head + segTable + payload;
    AroundTable(head, segTable, payload);
    assert buf[26..] == buf[..][26..] && buf[..22] == buf[..][..22];
  }

  lemma AroundTable(head: seq<Byte>, segTable: seq<Byte>, payload: seq<Byte>)
    requires |head| == PAGE_HEADER_LEN
    ensures (head + segTable + payload)[26..] == head[26..] + segTable + payload
    ensures (head + segTable + payload)[..22] == head[..22]
  {
  }

  method FillPreamble(buf: array<Byte>, flags: Byte, granule: nat, pageNo: nat)
    requires buf.Length >= PAGE_HEADER_LEN
    modifies buf
    ensures buf[..22] == Preamble(flags, granule, pageNo)
  {
    CopyInto(buf, 0, CAPTURE);
    assert buf[..4] == CAPTURE;
    buf[4] := 0;
    buf[5] := flags;
    assert buf[..6] == CAPTURE + [0, flags];
    PutUint(buf, 6, granule, 8);
    assert buf[..14] == buf[..6] + buf[6..14];
    PutUint(buf, 14, 0, 4);
    assert buf[..18] == buf[..14] + buf[14..18];
    PutUint(buf, 18, pageNo, 4);
    assert buf[..22] == buf[..18] + buf[18..22];
  }

  /** recorder.go:164-170 and 222-227: the segments of one packet */
  method LacePacket(size: nat) returns (table: seq<Byte>)
    ensures table == Lacing(size)
  {
    table := [];
    var remaining := size;
    while remaining >= 255
      invariant 0 <= remaining
      invariant table + Lacing(remaining) == Lacing(size)
    {
      assert table + ([255] + Lacing(remaining - 255)) == (table + [255]) + Lacing(remaining - 255);
      table := table + [255];
      remaining := remaining - 255;
    }
    table := table + [remaining];
  }

  /** recorder.go:162-171 */
  method SegmentTable(packets: seq<Packet>) returns (table: seq<Byte>)
    ensures table == Segments(packets)
  {
    table := [];
    for i := 0 to |packets|
      invariant table + Segments(packets[i..]) == Segments(packets)
    {
      var segs := LacePacket(|packets[i]|);
      assert packets[i..][1..] == packets[i + 1..];
      ConcatBytes(table, segs, Segments(packets[i + 1..]));
      table := table + segs;
    }
  }

  /** recorder.go:176-180 */
  method Concatenate(packets: seq<Packet>) returns (payload: seq<Byte>)
    ensures payload == Payload(packets)
  {
    payload := [];
    for i := 0 to |packets|
      invariant payload + Payload(packets[i..]) == Payload(packets)
    {
      assert packets[i..][1..] == packets[i + 1..];
      ConcatBytes(payload, packets[i], Payload(packets[i + 1..]));
      payload := payload + packets[i];
    }
  }
}
