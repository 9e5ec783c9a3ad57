/** Framing of data packs in a stage block: BSON documents one after the other, each starting
    with its total length as a little-endian 32 bit number. */
module StageBlocks {
  import opened CommandTypes
  import opened DataFiles

  type Document = seq<Byte>

  function LittleEndian(b: seq<Byte>): nat
    requires |b| == 4
  {
    (b[0] as int) + 0x100 * (b[1] as int) + 0x1_0000 * (b[2] as int) + 0x100_0000 * (b[3] as int)
  }

  const INT32_END := 0x8000_0000

  /** The `document` production of BSON version 1.1: at least the length and the closing zero byte;
      the length is a signed 32 bit number. */
  predicate WellFormed(d: Document)
  {
    5 <= |d| < INT32_END && LittleEndian(d[..4]) == |d|
  }

  function Flatten(docs: seq<Document>): seq<Byte>
  {
    if docs == [] then [] else Flatten(docs[..|docs| - 1]) + docs[|docs| - 1]
  }

  /** Reading is all or nothing: a read past the end yields no data. */
  function ReadAt(bytes: seq<Byte>, position: nat, n: nat): Option<seq<Byte>>
  {
    if position + n <= |bytes| then Some(bytes[position..position + n]) else None
  }

  /** Header, then the rest of the document. A length of 4 reads an empty rest, a smaller one wraps
      around to more than an `int` can count; both end the scan. */
  function FrameAt(bytes: seq<Byte>, position: nat): Option<Document>
  {
    match ReadAt(bytes, position, 4)
    case None => None
    case Some(header) =>
      var n := LittleEndian(header);
      if n <= 4 || n - 4 >= INT32_END then None
      else
        match ReadAt(bytes, position + 4, n - 4)
        case None => None
        case Some(rest) => Some(header + rest)
  }

  lemma {:induction false} FlattenSplit(docs: seq<Document>, i: nat)
    requires i <= |docs|
    ensures Flatten(docs) == Flatten(docs[..i]) + Flatten(docs[i..])
    decreases |docs|
  {
    var n := |docs|;
    if i == n {
      assert docs[..i] == docs && docs[i..] == [];
    } else {
      FlattenSplit(docs[..n - 1], i);
      assert docs[..n - 1][..i] == docs[..i];
      assert docs[i..][..n - i - 1] == docs[..n - 1][i..];
    }
  }

  lemma FlattenAt(docs: seq<Document>, i: nat)
    requires i < |docs|
    ensures |Flatten(docs[..i])| + |docs[i]| == |Flatten(docs[..i + 1])| <= |Flatten(docs)|
    ensures Flatten(docs)[|Flatten(docs[..i])|..|Flatten(docs[..i + 1])|] == docs[i]
  {
    FlattenSplit(docs, i + 1);
    assert docs[..i + 1][..i] == docs[..i];
    assert Flatten(docs[..i + 1]) == Flatten(docs[..i]) + docs[i];
  }

  /** Reading at a document boundary yields exactly the next document. */
  lemma FrameAtBoundary(docs: seq<Document>, i: nat)
    requires i < |docs| && WellFormed(docs[i])
    ensures FrameAt(Flatten(docs), |Flatten(docs[..i])|) == Some(docs[i])
  {
    var bytes, p, d := Flatten(docs), |Flatten(docs[..i])|, docs[i];
    FlattenAt(docs, i);
    assert bytes[p..p + |d|] == d;
    assert bytes[p..p + 4] == d[..4];
    assert bytes[p + 4..p + |d|] == d[4..];
    assert d[..4] + d[4..] == d;
  }

  /** The block ends exactly after the last document, and not before. */
  lemma {:induction false} EndOfBlock(docs: seq<Document>, i: nat)
    requires i <= |docs| && forall j :: 0 <= j < |docs| ==> WellFormed(docs[j])
    ensures |Flatten(docs[..i])| == |Flatten(docs)| <==> i == |docs|
    ensures |Flatten(docs[..i])| <= |Flatten(docs)|
  {
    if i < |docs| {
      FlattenAt(docs, i);
    } else {
      assert docs[..i] == docs;
    }
  }

  /** The documents a scan of the block processes, from a position on; `failsAt` documents are
      processed before one fails. Also tells whether the block is removed: that happens when a read
      finds itself at the end, which with a stray header at the end is too early. */
  function ScanFrom(bytes: seq<Byte>, position: nat, failsAt: Option<nat>): (seq<Document>, bool)
    decreases |bytes| - position
  {
    if position == |bytes| then ([], true)
    else
      var frame := FrameAt(bytes, position);
      if position > |bytes| || frame.None? then ([], position + 4 == |bytes|)
      else if failsAt == Some(0) then ([frame.value], false)
      else Prepend([frame.value], ScanFrom(bytes, position + |frame.value|, OneLess(failsAt)))
  }

  function OneLess(failsAt: Option<nat>): Option<nat>
    requires failsAt != Some(0)
  {
    if failsAt.None? then None else Some(failsAt.value - 1)
  }

  function Prepend(done: seq<Document>, r: (seq<Document>, bool)): (seq<Document>, bool) {
    (done + r.0, r.1)
  }

  lemma FrameBounds(bytes: seq<Byte>, position: nat)
    requires FrameAt(bytes, position).Some?
    ensures 4 < |FrameAt(bytes, position).value| && position + |FrameAt(bytes, position).value| <= |bytes|
  {
  }

  /** The state of the scan loop: what is processed so far and what is to come make the result. */
  ghost predicate Scanning(bytes: seq<Byte>, position: nat, left: Option<nat>, done: seq<Document>,
                           result: (seq<Document>, bool))
  {
    position <= |bytes| && result == Prepend(done, ScanFrom(bytes, position, left))
  }

  lemma ScanBegins(bytes: seq<Byte>, position: nat, failsAt: Option<nat>)
    requires position <= |bytes|
    ensures Scanning(bytes, position, failsAt, [], ScanFrom(bytes, position, failsAt))
  {
    assert [] + ScanFrom(bytes, position, failsAt).0 == ScanFrom(bytes, position, failsAt).0;
  }

  /** One turn of the loop. */
  lemma ScanTurn(bytes: seq<Byte>, position: nat, left: Option<nat>, done: seq<Document>, result: (seq<Document>, bool))
    requires Scanning(bytes, position, left, done, result)
    ensures match FrameAt(bytes, position)
            case None => result == (done, position == |bytes| || position + 4 == |bytes|)
            case Some(doc) =>
              |doc| > 4 && position + |doc| <= |bytes| &&
              if left == Some(0) then result == (done + [doc], false)
              else Scanning(bytes, position + |doc|, OneLess(left), done + [doc], result)
  {
    var frame := FrameAt(bytes, position);
    if frame.None? {
      assert done + [] == done;
    } else {
      FrameBounds(bytes, position);
      if left != Some(0) {
        var rest := ScanFrom(bytes, position + |frame.value|, OneLess(left)).0;
        assert done + ([frame.value] + rest) == done + [frame.value] + rest;
      }
    }
  }

  /** Round trip: scanning a block of well-formed documents without error processes exactly these,
      in order, once each, and then removes the block. */
  lemma {:induction false} ScanRoundTrip(docs: seq<Document>, i: nat)
    requires i <= |docs| && forall j :: 0 <= j < |docs| ==> WellFormed(docs[j])
    ensures ScanFrom(Flatten(docs), |Flatten(docs[..i])|, None) == (docs[i..], true)
    decreases |docs| - i
  {
    EndOfBlock(docs, i);
    if i < |docs| {
      ScanRoundTrip(docs, i + 1);
      ScanOne(docs, i);
    } else {
      assert docs[i..] == [];
    }
  }

  lemma ScanOne(docs: seq<Document>, i: nat)
    requires i < |docs| && WellFormed(docs[i]) && |Flatten(docs[..i])| < |Flatten(docs)|
    ensures |Flatten(docs[..i + 1])| <= |Flatten(docs)|
    ensures ScanFrom(Flatten(docs), |Flatten(docs[..i + 1])|, None) == (docs[i + 1..], true) ==>
              ScanFrom(Flatten(docs), |Flatten(docs[..i])|, None) == (docs[i..], true)
  {
    FrameAtBoundary(docs, i);
    FlattenAt(docs, i);
    assert docs[i..] == [docs[i]] + docs[i + 1..];
  }

  lemma FlattenFirst(doc: Document, rest: seq<Document>)
    ensures Flatten([doc] + rest) == doc + Flatten(rest)
  {
    var docs, one: seq<Document> := [doc] + rest, [doc];
    FlattenSplit(docs, 1);
    assert docs[..1] == one && docs[1..] == rest && one[..0] == [];
    assert Flatten(one) == Flatten([]) + doc;
  }

  /** A frame is a piece of the block, cut at its length field. */
  lemma FrameIsSlice(bytes: seq<Byte>, position: nat)
    requires FrameAt(bytes, position).Some?
    ensures var doc := FrameAt(bytes, position).value;
            |doc| > 4 && LittleEndian(doc[..4]) == |doc| && position + |doc| <= |bytes| &&
            doc == bytes[position..position + |doc|]
  {
    FrameBounds(bytes, position);
    var doc := FrameAt(bytes, position).value;
    assert bytes[position..position + |doc|] == bytes[position..position + 4] + bytes[position + 4..position + |doc|];
  }

  /** A document can be read exactly when its length field is there, exceeds the field itself, leaves a rest that an
      `int` can count, and does not lead past the end of the block. */
  lemma FrameExactlyWhen(bytes: seq<Byte>, position: nat)
    ensures FrameAt(bytes, position).Some? <==>
            position + 4 <= |bytes| &&
            var n := LittleEndian(bytes[position..position + 4]);
            4 < n && n - 4 < 0x8000_0000 && position + n <= |bytes|
  {
  }

  /** These documents are what the block holds between position and end. */
  ghost predicate Cuts(bytes: seq<Byte>, position: nat, docs: seq<Document>, end: nat)
  {
    position <= end <= |bytes| && bytes[position..end] == Flatten(docs) &&
    forall j :: 0 <= j < |docs| ==> |docs[j]| > 4 && LittleEndian(docs[j][..4]) == |docs[j]|
  }

  lemma CutsFirst(bytes: seq<Byte>, position: nat, rest: seq<Document>, end: nat)
    requires FrameAt(bytes, position).Some? && Cuts(bytes, position + |FrameAt(bytes, position).value|, rest, end)
    ensures Cuts(bytes, position, [FrameAt(bytes, position).value] + rest, end)
  {
    var doc := FrameAt(bytes, position).value;
    FrameIsSlice(bytes, position);
    FlattenFirst(doc, rest);
    assert bytes[position..end] == bytes[position..position + |doc|] + bytes[position + |doc|..end];
  }

  /** Any block whatsoever: what a scan without error processes is the block's beginning, cut at the
      length fields, up to where no document can be read, and the block is removed exactly when
      nothing or just four bytes are left there. */
  lemma {:induction false} ScanOfAnyBlock(bytes: seq<Byte>, position: nat) returns (end: nat)
    requires position <= |bytes|
    ensures Cuts(bytes, position, ScanFrom(bytes, position, None).0, end) && FrameAt(bytes, end).None?
    ensures ScanFrom(bytes, position, None).1 <==> end == |bytes| || end + 4 == |bytes|
    decreases |bytes| - position
  {
    end := position;
    if FrameAt(bytes, position).Some? {
      FrameBounds(bytes, position);
      var next := position + |FrameAt(bytes, position).value|;
      end := ScanOfAnyBlock(bytes, next);
      CutsFirst(bytes, position, ScanFrom(bytes, next, None).0, end);
    }
  }

  /** A document that fails is the last one processed, and the block then stays; if the scan would not have come to it,
      nothing changes. */
  lemma {:induction false} ScanStopsAtFailure(bytes: seq<Byte>, position: nat, k: nat)
    requires position <= |bytes|
    ensures var (docs, removed) := ScanFrom(bytes, position, None);
            ScanFrom(bytes, position, Some(k)) == if k < |docs| then (docs[..k + 1], false) else (docs, removed)
    decreases |bytes| - position
  {
    var frame := FrameAt(bytes, position);
    if frame.Some? {
      FrameBounds(bytes, position);
      var next := position + |frame.value|;
      var rest := ScanFrom(bytes, next, None).0;
      if k > 0 {
        ScanStopsAtFailure(bytes, next, k - 1);
        assert k < |rest| + 1 ==> ([frame.value] + rest)[..k + 1] == [frame.value] + rest[..k];
      } else {
        assert ([frame.value] + rest)[..1] == [frame.value];
      }
    }
  }

  /** Hence a block has only one reading as well-formed documents. */
  lemma UniqueReading(a: seq<Document>, b: seq<Document>)
    requires forall j :: 0 <= j < |a| ==> WellFormed(a[j])
    requires forall j :: 0 <= j < |b| ==> WellFormed(b[j])
    requires Flatten(a) == Flatten(b)
    ensures a == b
  {
    ScanRoundTrip(a, 0);
    ScanRoundTrip(b, 0);
    assert a[..0] == [] && b[..0] == [] && a[0..] == a && b[0..] == b;
  }
}
