/** getOpusDuration of common/audio.go: walking the pages of an Ogg stream (section 6 of RFC 3533) for
    the largest granule position, which an Opus stream counts at 48 kHz (section 4 of RFC 7845). */
module OggOpus {
  import opened Basics

  const HEADER := 27
  const CAPTURE: seq<Byte> := [0x4F, 0x67, 0x67, 0x53]  // "OggS"
  const TWO63 := 0x8000_0000_0000_0000
  const TWO64 := 0x1_0000_0000_0000_0000

  function Sum(bytes: seq<Byte>): nat {
    if bytes == [] then 0 else Sum(bytes[..|bytes| - 1]) + bytes[|bytes| - 1]
  }

  /** A sum: nothing for no bytes, the byte for one, and additive. */
  lemma {:induction false} SumAdds(a: seq<Byte>, b: seq<Byte>)
    ensures Sum(a + b) == Sum(a) + Sum(b)
    ensures |a| == 0 ==> Sum(a) == 0
    ensures |a| == 1 ==> Sum(a) == a[0]
  {
    if b == [] {
      assert a + b == a;
    } else {
      SumAdds(a, b[..|b| - 1]);
      assert (a + b)[..|a + b| - 1] == a + b[..|b| - 1];
    }
  }

  /** Little-endian value. */
  function Unsigned(bytes: seq<Byte>): nat {
    if bytes == [] then 0 else bytes[0] + 256 * Unsigned(bytes[1..])
  }

  /** int64(binary.LittleEndian.Uint64(bytes)). */
  function Signed64(bytes: seq<Byte>): int {
    var v := Unsigned(bytes);
    if v >= TWO63 then v - TWO64 else v
  }

  function Larger(best: int, granule: int): int {
    if granule > best then granule else best
  }

  /** The largest granule position the walk sees in the unread bytes, starting from best. */
  function Walk(rest: seq<Byte>, best: int): int
    decreases |rest|
  {
    if |rest| < HEADER then best
    else if rest[..4] != CAPTURE then Walk(rest[1..], best)
    else
      var best' := Larger(best, Signed64(rest[6..14]));
      var n := rest[26];
      if |rest| < HEADER + n then best'
      else
        var skip := HEADER + n + Sum(rest[HEADER..HEADER + n]);
        if skip < |rest| then Walk(rest[skip..], best') else best'
  }

  // ---------------------------------------------------------------- the reader and the loop

  /** An in-memory file: Read returns what is left, up to n bytes; Seek may go past the end. */
  class Reader {
    const data: seq<Byte>
    var pos: nat

    constructor (data: seq<Byte>)
      ensures this.data == data && pos == 0
    {
      this.data, pos := data, 0;
    }

    ghost function Rest(): seq<Byte>
      reads this
    {
      if pos <= |data| then data[pos..] else []
    }

    method Read(n: nat) returns (bytes: seq<Byte>)
      modifies this
      ensures bytes == if n <= |old(Rest())| then old(Rest())[..n] else old(Rest())
      ensures pos == old(pos) + |bytes|
    {
      if pos >= |data| {
        bytes := [];
      } else {
        bytes := if pos + n <= |data| then data[pos..pos + n] else data[pos..];
      }
      pos := pos + |bytes|;
    }

    /** Seek(delta, io.SeekCurrent); fails on a negative position. */
    method SeekCurrent(delta: int) returns (ok: bool)
      modifies this
      ensures ok == (old(pos) + delta >= 0)
      ensures pos == if ok then old(pos) + delta else old(pos)
    {
      ok := pos + delta >= 0;
      if ok {
        pos := pos + delta;
      }
    }
  }

  /** The loop of getOpusDuration. It ends on every byte string, since the unread bytes shrink even
      through the seek back of 26. */
  method GetOpusDuration(r: Reader) returns (duration: real)
    modifies r
    ensures duration == Walk(r.data, 0) as real / 48000.0
  {
    r.pos := 0;
    var total, done := 0, false;
    assert r.data[0..] == r.data;
    while !done
      invariant if done then total == Walk(r.data, 0) else Walk(r.Rest(), total) == Walk(r.data, 0)
      decreases !done, |r.Rest()|
    {
      total, done := ReadPage(r, total);
    }
    duration := total as real / 48000.0;
  }

  /** One turn of the loop; done stands for its break statements. */
  method ReadPage(r: Reader, best: int) returns (total: int, done: bool)
    modifies r
    ensures done ==> total == Walk(old(r.Rest()), best)
    ensures !done ==> Walk(r.Rest(), total) == Walk(old(r.Rest()), best) && |r.Rest()| < |old(r.Rest())|
  {
    ghost var rest := r.Rest();
    total, done := best, false;
    var buf := r.Read(HEADER);
    if |buf| < HEADER {
      return best, true;
    }
    assert buf[0..4] == rest[..4];
    if buf[0..4] != CAPTURE {
      var ok := r.SeekCurrent(-26);
      assert r.Rest() == rest[1..];
      return best, false;
    }
    assert buf[6..14] == rest[6..14];
    var granule := Signed64(buf[6..14]);
    if granule > total {
      total := granule;
    }
    assert total == Larger(best, Signed64(rest[6..14])) && buf[26] == rest[26];
    assert r.Rest() == rest[HEADER..];
    done := SkipPayload(r, buf[26]);
    if done {
      assert |rest| < HEADER + rest[26];
    } else {
      WalkPage(rest, best, r.Rest());
    }
  }

  lemma SliceTwice<T>(s: seq<T>, a: nat, n: nat)
    requires a + n <= |s|
    ensures s[a..][..n] == s[a..a + n] && s[a..][n..] == s[a + n..]
  {
  }

  /** Walking on after a complete segment table. */
  lemma WalkPage(rest: seq<Byte>, best: int, after: seq<Byte>)
    requires |rest| >= HEADER && rest[..4] == CAPTURE && |rest[HEADER..]| >= rest[26]
    requires var payload, n := rest[HEADER..], rest[26];
             var skip := n + Sum(payload[..n]);
             after == if skip < |payload| then payload[skip..] else []
    ensures Walk(rest, best) == Walk(after, Larger(best, Signed64(rest[6..14]))) && |after| < |rest|
  {
    var n := rest[26];
    SliceTwice(rest, HEADER, n);
    var skip := n + Sum(rest[HEADER..HEADER + n]);
    if HEADER + skip < |rest| {
      SliceTwice(rest, HEADER, skip);
    }
  }

  /** Reads the segment table and seeks over the page body. */
  method SkipPayload(r: Reader, segments: Byte) returns (short: bool)
    modifies r
    ensures short == (|old(r.Rest())| < segments)
    ensures !short ==>
              var skip := segments + Sum(old(r.Rest())[..segments]);
              r.Rest() == if skip < |old(r.Rest())| then old(r.Rest())[skip..] else []
  {
    var table := r.Read(segments);
    if |table| < segments {
      return true;
    }
    var size := SumLoop(table);
    var ok := r.SeekCurrent(size);
    return false;
  }

  method SumLoop(table: seq<Byte>) returns (size: nat)
    ensures size == Sum(table)
  {
    size := 0;
    for i := 0 to |table|
      invariant size == Sum(table[..i])
    {
      assert table[..i + 1][..i] == table[..i];
      size := size + table[i];
    }
    assert table[..|table|] == table;
  }

  // ---------------------------------------------------------------- pages as RFC 3533 lays them out

  datatype Page = Page(
    version: Byte, headerType: Byte, granule: int, serial: seq<Byte>, number: seq<Byte>, checksum: seq<Byte>,
    segments: seq<Byte>, body: seq<Byte>)

  predicate WellFormed(p: Page) {
    && -TWO63 <= p.granule < TWO63
    && |p.serial| == |p.number| == |p.checksum| == 4
    && |p.segments| <= 255
    && |p.body| == Sum(p.segments)
  }

  function Encode(v: nat, width: nat): (bytes: seq<Byte>)
    ensures |bytes| == width
  {
    if width == 0 then [] else [v % 256] + Encode(v / 256, width - 1)
  }

  function Encode64(granule: int): (bytes: seq<Byte>)
    requires -TWO63 <= granule < TWO63
    ensures |bytes| == 8
  {
    Encode(if granule < 0 then granule + TWO64 else granule, 8)
  }

  function Header(p: Page): (bytes: seq<Byte>)
    requires WellFormed(p)
    ensures |bytes| == 27
  {
    [0x4F, 0x67, 0x67, 0x53, p.version, p.headerType] + Encode64(p.granule) +
    p.serial + p.number + p.checksum + [|p.segments|]
  }

  function Serialize(p: Page): seq<Byte>
    requires WellFormed(p)
  {
    Header(p) + p.segments + p.body
  }

  function Bound(width: nat): nat {
    if width == 0 then 1 else 256 * Bound(width - 1)
  }

  lemma {:induction false} UnsignedEncode(v: nat, width: nat)
    requires v < Bound(width)
    ensures Unsigned(Encode(v, width)) == v
  {
    if width > 0 {
      UnsignedEncode(v / 256, width - 1);
      assert Encode(v, width)[1..] == Encode(v / 256, width - 1);
    }
  }

  /** Decoding a granule position undoes encoding it, over the whole signed range. */
  lemma Granule64(granule: int)
    requires -TWO63 <= granule < TWO63
    ensures Signed64(Encode64(granule)) == granule
  {
    assert Bound(4) == 0x1_0000_0000 && Bound(8) == TWO64;
    UnsignedEncode(if granule < 0 then granule + TWO64 else granule, 8);
  }

  // ---------------------------------------------------------------- streams

  /** Bytes that belong to no page, then a page. */
  datatype Part = Part(gap: seq<Byte>, page: Page)

  ghost predicate AllWellFormed(parts: seq<Part>) {
    forall i :: 0 <= i < |parts| ==> WellFormed(parts[i].page)
  }

  function Stream(parts: seq<Part>, tail: seq<Byte>): seq<Byte>
    requires AllWellFormed(parts)
  {
    if parts == [] then tail
    else parts[0].gap + (Serialize(parts[0].page) + Stream(parts[1..], tail))
  }

  predicate StartsAt(bytes: seq<Byte>, i: nat) {
    i + 4 <= |bytes| && bytes[i..i + 4] == CAPTURE
  }

  /** "OggS" starts nowhere in the first n bytes, reading on into what follows them. */
  ghost predicate Clean(bytes: seq<Byte>, n: nat) {
    forall i: nat :: i < n ==> !StartsAt(bytes, i)
  }

  /** No gap before a page holds the start of a capture pattern. */
  ghost predicate GapsClean(parts: seq<Part>, tail: seq<Byte>)
    requires AllWellFormed(parts)
  {
    parts != [] ==> Clean(Stream(parts, tail), |parts[0].gap|) && GapsClean(parts[1..], tail)
  }

  function LargestGranule(parts: seq<Part>, best: int): int {
    if parts == [] then best else LargestGranule(parts[1..], Larger(best, parts[0].page.granule))
  }

  /** The largest granule is an upper bound, and it is the start value or some page's own. */
  lemma {:induction false} LargestGranuleIsMax(parts: seq<Part>, best: int)
    ensures var m := LargestGranule(parts, best);
            m >= best && (forall i :: 0 <= i < |parts| ==> m >= parts[i].page.granule) &&
            (m == best || exists i :: 0 <= i < |parts| && m == parts[i].page.granule)
  {
    if parts != [] {
      var best' := Larger(best, parts[0].page.granule);
      LargestGranuleIsMax(parts[1..], best');
      var m := LargestGranule(parts, best);
      if m != best' {
        var i :| 0 <= i < |parts[1..]| && m == parts[1..][i].page.granule;
        assert parts[1..][i] == parts[i + 1];
      }
      forall i | 0 <= i < |parts| ensures m >= parts[i].page.granule {
        assert i > 0 ==> parts[i] == parts[1..][i - 1];
      }
    }
  }

  /** Resynchronisation: bytes without a capture pattern are skipped one by one. */
  lemma {:induction false} SkipGap(gap: seq<Byte>, rest: seq<Byte>, best: int)
    requires Clean(gap + rest, |gap|)
    ensures Walk(gap + rest, best) == Walk(rest, best)
  {
    var all := gap + rest;
    if gap == [] {
      assert all == rest;
    } else if |all| >= HEADER {
      assert all[1..] == gap[1..] + rest;
      forall i: nat | i < |gap[1..]| ensures !StartsAt(gap[1..] + rest, i) {
        assert !StartsAt(all, i + 1);
        assert i + 5 <= |all| ==> all[i + 1..i + 5] == all[1..][i..i + 4];
      }
      SkipGap(gap[1..], rest, best);
      assert !StartsAt(all, 0);
      assert all[0..4] == all[..4];
    }
  }

  /** The fields the walk reads sit where section 6 of RFC 3533 puts them, in any prefix that has them. */
  lemma HeaderFields(p: Page, rest: seq<Byte>)
    requires WellFormed(p) && |rest| >= HEADER && rest[..HEADER] == Header(p)
    ensures rest[..4] == CAPTURE && Signed64(rest[6..14]) == p.granule && rest[26] == |p.segments|
  {
    Granule64(p.granule);
    var h := Header(p);
    assert h[..4] == CAPTURE && h[6..14] == Encode64(p.granule) && h[26] == |p.segments|;
    assert rest[..4] == rest[..HEADER][..4] && rest[6..14] == rest[..HEADER][6..14] && rest[26] == rest[..HEADER][26];
  }

  /** A complete page is consumed exactly. */
  lemma ConsumePage(p: Page, rest: seq<Byte>, best: int)
    requires WellFormed(p)
    ensures Walk(Serialize(p) + rest, best) == Walk(rest, Larger(best, p.granule))
  {
    var all, n := Serialize(p) + rest, |p.segments|;
    assert all[..HEADER] == Header(p);
    HeaderFields(p, all);
    assert all[HEADER..HEADER + n] == p.segments;
    assert all[|Serialize(p)|..] == rest;
  }

  /** A page cut off anywhere after its header still counts. */
  lemma TruncatedPage(p: Page, k: nat, best: int)
    requires WellFormed(p) && HEADER <= k <= |Serialize(p)|
    ensures Walk(Serialize(p)[..k], best) == Larger(best, p.granule)
  {
    var all, n := Serialize(p)[..k], |p.segments|;
    assert all[..HEADER] == Header(p);
    HeaderFields(p, all);
    if k >= HEADER + n {
      assert all[HEADER..HEADER + n] == p.segments;
    }
  }

  /** Complete pages are all found, whatever follows them. */
  lemma {:induction false} WalkParts(parts: seq<Part>, tail: seq<Byte>, best: int)
    requires AllWellFormed(parts) && GapsClean(parts, tail)
    ensures Walk(Stream(parts, tail), best) == Walk(tail, LargestGranule(parts, best))
  {
    if parts != [] {
      var p, rest := parts[0], Stream(parts[1..], tail);
      assert Stream(parts, tail) == p.gap + (Serialize(p.page) + rest);
      SkipGap(p.gap, Serialize(p.page) + rest, best);
      ConsumePage(p.page, rest, best);
      WalkParts(parts[1..], tail, Larger(best, p.page.granule));
    }
  }

  /** THE WALK FINDS EVERY PAGE. On any sequence of serialised pages with garbage before, between and
      after them in which no capture pattern starts, the walk returns the largest granule position. */
  lemma WalkStream(parts: seq<Part>, tail: seq<Byte>, best: int)
    requires AllWellFormed(parts) && GapsClean(parts, tail) && Clean(tail, |tail|)
    ensures Walk(Stream(parts, tail), best) == LargestGranule(parts, best)
  {
    WalkParts(parts, tail, best);
    assert tail + [] == tail;
    SkipGap(tail, [], LargestGranule(parts, best));
  }

  /** A STREAM CUT OFF IN ITS LAST PAGE, anywhere: the last page counts exactly when its header is complete. */
  lemma WalkCutStream(parts: seq<Part>, last: Part, k: nat, best: int)
    requires AllWellFormed(parts) && WellFormed(last.page) && k <= |Serialize(last.page)|
    requires var tail := last.gap + Serialize(last.page)[..k]; GapsClean(parts, tail) && Clean(tail, |last.gap|)
    ensures var found := LargestGranule(parts, best);
            Walk(Stream(parts, last.gap + Serialize(last.page)[..k]), best) ==
            if k >= HEADER then Larger(found, last.page.granule) else found
  {
    var found, cut := LargestGranule(parts, best), Serialize(last.page)[..k];
    WalkParts(parts, last.gap + cut, best);
    SkipGap(last.gap, cut, found);
    if k >= HEADER {
      TruncatedPage(last.page, k, found);
    }
  }

  /** The duration of a stream, in seconds: never negative, and set by the largest granule position. */
  method DurationOfStream(parts: seq<Part>, tail: seq<Byte>) returns (duration: real)
    requires AllWellFormed(parts) && GapsClean(parts, tail) && Clean(tail, |tail|)
    ensures duration >= 0.0
    ensures forall i :: 0 <= i < |parts| ==> duration * 48000.0 >= parts[i].page.granule as real
    ensures duration == 0.0 || exists i :: 0 <= i < |parts| && duration == parts[i].page.granule as real / 48000.0
  {
    var r := new Reader(Stream(parts, tail));
    duration := GetOpusDuration(r);
    WalkStream(parts, tail, 0);
    LargestGranuleIsMax(parts, 0);
  }
}
