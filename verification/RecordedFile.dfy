/**
 The bytes of a recording, as another program would read them (section 6 of RFC 3533, sections
 5.1 and 5.2 of RFC 7845): the two header pages and every page that follows.
 */
module RecordedFile {
  import opened OggFormat
  import opened Recorder

  /** Where page `k` of the recorded pages begins in the file. */
  function Start(ops: seq<Op>, k: nat): nat
    requires k <= |Run(ops).pages|
  {
    100 + |Encode(Run(ops).pages[..k])|
  }

  // ----- The header pages -----

  lemma OpusHeadBytes()
    ensures |OPUS_HEAD| == 19
    ensures OPUS_HEAD[..8] == [0x4F, 0x70, 0x75, 0x73, 0x48, 0x65, 0x61, 0x64] // OpusHead
    ensures OPUS_HEAD[8] == 1 && OPUS_HEAD[9] == 1                             // version, channels
    ensures Value(OPUS_HEAD[10..12]) == 0                                      // pre-skip
    ensures Value(OPUS_HEAD[12..16]) == 48000                                  // input sample rate
    ensures Value(OPUS_HEAD[16..18]) == 0                                      // output gain
    ensures OPUS_HEAD[18] == 0                                                 // channel mapping family
  {
    hide LittleEndian, Value, Power256;
    Powers();
    LittleEndianValue(0, 2);
    LittleEndianValue(48000, 4);
    assert OPUS_HEAD[10..12] == LittleEndian(0, 2);
    assert OPUS_HEAD[12..16] == LittleEndian(48000, 4);
    assert OPUS_HEAD[16..18] == LittleEndian(0, 2);
  }

  lemma OpusTagsBytes()
    ensures |OPUS_TAGS| == 25
    ensures OPUS_TAGS[..8] == [0x4F, 0x70, 0x75, 0x73, 0x54, 0x61, 0x67, 0x73]              // OpusTags
    ensures Value(OPUS_TAGS[8..12]) == 9                                                    // vendor length
    ensures OPUS_TAGS[12..21] == [0x77, 0x68, 0x61, 0x74, 0x6F, 0x6D, 0x61, 0x74, 0x65]     // whatomate
    ensures Value(OPUS_TAGS[21..25]) == 0                                                   // no comments
  {
    hide LittleEndian, Value, Power256;
    Powers();
    LittleEndianValue(9, 4);
    LittleEndianValue(0, 4);
    assert OPUS_TAGS[8..12] == LittleEndian(9, 4);
    assert OPUS_TAGS[21..25] == LittleEndian(0, 4);
  }

  /** Every recording opens with OpusHead, flagged as the beginning of the stream, and OpusTags. */
  lemma HeaderPages(ops: seq<Op>)
    ensures |Run(ops).s.file| >= 100
    ensures PageBytes(Run(ops).s.file[..47], 2, 0, 0, [19], OPUS_HEAD)
    ensures PageBytes(Run(ops).s.file[47..100], 0, 0, 1, [25], OPUS_TAGS)
  {
    hide Page, PageBytes, Run;
    var file := Run(ops).s.file;
    FileIsPages(ops);
    OpusHeadBytes();
    OpusTagsBytes();
    PageHasBytes(2, 0, 0, [19], OPUS_HEAD);
    PageHasBytes(0, 0, 1, [25], OPUS_TAGS);
    ShortLacing(19);
    ShortLacing(25);
    assert HEADERS == Page(2, 0, 0, [19], OPUS_HEAD) + Page(0, 0, 1, [25], OPUS_TAGS);
    assert file[..47] == Page(2, 0, 0, [19], OPUS_HEAD);
    assert file[47..100] == Page(0, 0, 1, [25], OPUS_TAGS);
  }

  lemma ShortLacing(n: nat)
    requires n < 255
    ensures Lacing(n) == [n]
  {
  }

  lemma HeaderLength()
    ensures |HEADERS| == 100
  {
    OpusHeadBytes();
    OpusTagsBytes();
    ShortLacing(19);
    ShortLacing(25);
    hide Head;
  }

  // ----- The recorded pages -----

  lemma {:induction false} FieldsFit(ops: seq<Op>, k: nat)
    requires k < |Run(ops).pages|
    ensures Run(ops).pages[k].granule < 0x1_0000_0000_0000_0000
    ensures Run(ops).pages[k].flags == 0 || Run(ops).pages[k].flags == 4
  {
    if ops != [] {
      hide Step;
      var prev, op := ops[..|ops| - 1], ops[|ops| - 1];
      StepFacts(Run(prev), op);
      if k < |Run(prev).pages| { FieldsFit(prev, k); }
    }
  }

  lemma PageSlice(pages: seq<PageRec>, k: nat, prefix: seq<Byte>)
    requires k < |pages|
    ensures var file, a, b := prefix + Encode(pages), |prefix| + |Encode(pages[..k])|, |prefix| + |Encode(pages[..k + 1])|;
            a <= b <= |file| && file[a..b] == pages[k].Bytes()
  {
    hide PageRec.Bytes, Encode;
    SplitPages(pages, k);
    EncodeSnoc(pages[..k], pages[k]);
    assert pages[..k] + [pages[k]] == pages[..k + 1];
  }

  /** The k-th recorded page as it stands in the file. */
  function PageAt(ops: seq<Op>, k: nat): seq<Byte>
    requires k < |Run(ops).pages|
  {
    var file, a, b := Run(ops).s.file, Start(ops, k), Start(ops, k + 1);
    if a <= b <= |file| then file[a..b] else []
  }

  lemma PageIsAt(ops: seq<Op>, k: nat)
    requires k < |Run(ops).pages|
    ensures Start(ops, k) <= Start(ops, k + 1) <= |Run(ops).s.file|
    ensures PageAt(ops, k) == Run(ops).pages[k].Bytes()
  {
    hide Run, PageRec.Bytes, Encode;
    FileIsPages(ops);
    HeaderLength();
    PageSlice(Run(ops).pages, k, HEADERS);
  }

  lemma PagesFillFile(ops: seq<Op>)
    ensures Start(ops, |Run(ops).pages|) == |Run(ops).s.file|
  {
    hide Run, Encode;
    FileIsPages(ops);
    HeaderLength();
    assert Run(ops).pages[..|Run(ops).pages|] == Run(ops).pages;
  }

  /**
   After any calls and failures, the file is the headers and then, one after the other, pages
   whose bytes say what was recorded, numbered from 2 on.
   */
  lemma EveryPage(ops: seq<Op>, k: nat)
    requires k < |Run(ops).pages|
    ensures Start(ops, k) <= Start(ops, k + 1) <= |Run(ops).s.file| && Start(ops, |Run(ops).pages|) == |Run(ops).s.file|
    ensures var p := Run(ops).pages[k];
            && PageBytes(PageAt(ops, k), p.flags, p.granule, (2 + k) % 0x1_0000_0000, Segments(p.packets), Payload(p.packets))
            && (p.flags == 0 || p.flags == 4)
  {
    PagesNumbered(ops);
    hide PageBytes, Page, Run, PageAt, Start;
    PageIsAt(ops, k);
    PagesFillFile(ops);
    FieldsFit(ops, k);
    var p := Run(ops).pages[k];
    PageHasBytes(p.flags, p.granule, p.pageNo, Segments(p.packets), Payload(p.packets));
  }

  lemma GoodFields(ops: seq<Op>, k: nat)
    requires AllOk(ops) && Closed(ops) && k < |Run(ops).pages|
    ensures var pages := Run(ops).pages;
            && 0 < |pages[k].packets| <= 48 && (k + 1 < |pages| ==> |pages[k].packets| == 48)
            && pages[k].flags == (if |pages[k].packets| == 48 then 0 else 4)
            && pages[k].granule == 960 * |Packets(pages[..k + 1])| % 0x1_0000_0000_0000_0000
            && Packets(pages) == Accepted(ops)
  {
    hide Run, Packets;
    PagedWhenOk(ops);
    PageGranules(ops);
    StoppedIffClosed(ops);
    Conservation(ops);
    assert GranuleFits(Run(ops).pages, k);
    assert Packets(Run(ops).pages) + [] == Packets(Run(ops).pages);
  }

  /**
   With successful writes and after Stop, every page holds 48 packets and no flag, but the last
   may be shorter and is then flagged as the end of the stream; its granule position is 960 for
   every packet up to its end.
   */
  lemma EveryGoodPage(ops: seq<Op>, k: nat)
    requires AllOk(ops) && Closed(ops) && k < |Run(ops).pages|
    ensures var pages := Run(ops).pages;
            && 0 < |pages[k].packets| <= 48 && (k + 1 < |pages| ==> |pages[k].packets| == 48)
            && PageBytes(PageAt(ops, k),
                         if |pages[k].packets| == 48 then 0 else 4,
                         960 * |Packets(pages[..k + 1])| % 0x1_0000_0000_0000_0000,
                         (2 + k) % 0x1_0000_0000,
                         Segments(pages[k].packets), Payload(pages[k].packets))
            && Packets(pages) == Accepted(ops)
  {
    hide PageBytes, Run, Packets, PageAt, AllOk, Closed, Accepted;
    EveryPage(ops, k);
    GoodFields(ops, k);
  }
}
