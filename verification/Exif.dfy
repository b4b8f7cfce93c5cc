// Does a JPEG carry EXIF metadata? The marker walk of the avatar upload, against
// a printer for the marker syntax of ITU-T T.81, section B.1.1.
module Exif {

  type byte = x: int | 0 <= x < 256

  const EXIF_HEADER: seq<byte> := [0x45, 0x78, 0x69, 0x66, 0, 0]

  predicate Ends(marker: byte) { marker == 0xda || marker == 0xd9 }

  predicate Standalone(marker: byte) { marker == 0x01 || 0xd0 <= marker <= 0xd7 }

  // A segment's length field, which counts itself and the payload.
  function Length(high: byte, low: byte): nat { (high as int) * 256 + (low as int) }

  // The walk over what is left of the file.
  predicate Scan(s: seq<byte>)
    decreases |s|
  {
    if |s| < 4 then false
    else if s[0] != 0xff then Scan(s[1..])
    else if Ends(s[1]) then false
    else if Standalone(s[1]) then Scan(s[2..])
    else
      var length := Length(s[2], s[3]);
      if length < 2 || 2 + length > |s| then false
      else if s[1] == 0xe1 && length >= 8 && s[4..10] == EXIF_HEADER then true
      else Scan(s[2 + length..])
  }

  predicate HasExif(data: seq<byte>) { |data| >= 4 && data[0] == 0xff && data[1] == 0xd8 && Scan(data[2..]) }

  // The offset only grows, never reads past the end, and decides as Scan does,
  // for any bytes at all.
  method DetectExif(data: array<byte>) returns (found: bool)
    ensures found == HasExif(data[..])
  {
    ghost var d := data[..];
    if data.Length < 4 || data[0] != 0xff || data[1] != 0xd8 { return false; }
    var offset := 2;
    while offset + 4 <= data.Length
      invariant 2 <= offset <= |d|
      invariant HasExif(d) == Scan(d[offset..])
      decreases data.Length - offset
    {
      hide HasExif, EXIF_HEADER, Scan, Length;
      ScanFrom(d, offset);
      if data[offset] != 0xff {
        offset := offset + 1;
        continue;
      }
      var marker := data[offset + 1];
      if marker == 0xda || marker == 0xd9 { return false; }
      if marker == 0x01 || (marker >= 0xd0 && marker <= 0xd7) {
        offset := offset + 2;
        continue;
      }
      var length := Length(data[offset + 2], data[offset + 3]);
      if length < 2 || offset + 2 + length > data.Length { return false; }
      if marker == 0xe1 && length >= 8 {
        assert data[offset + 4..offset + 10] == d[offset + 4..offset + 10];
        if data[offset + 4..offset + 10] == EXIF_HEADER { return true; }
      }
      offset := offset + 2 + length;
    }
    found := false;
  }

  // One turn of the walk at an offset.
  lemma ScanFrom(data: seq<byte>, o: nat)
    requires o + 4 <= |data|
    ensures Scan(data[o..]) <==>
      if data[o] != 0xff then Scan(data[o + 1..])
      else if Ends(data[o + 1]) then false
      else if Standalone(data[o + 1]) then Scan(data[o + 2..])
      else
        var length := Length(data[o + 2], data[o + 3]);
        if length < 2 || o + 2 + length > |data| then false
        else if data[o + 1] == 0xe1 && length >= 8 && data[o + 4..o + 10] == EXIF_HEADER then true
        else Scan(data[o + 2 + length..])
  {
    hide EXIF_HEADER;
    var s := data[o..];
    assert s[1..] == data[o + 1..] && s[2..] == data[o + 2..];
    var length := Length(data[o + 2], data[o + 3]);
    if o + 2 + length <= |data| { assert s[2 + length..] == data[o + 2 + length..]; }
    if o + 10 <= |data| { assert s[4..10] == data[o + 4..o + 10]; }
  }

  // ---------- The printer ----------

  // A marker segment, a marker on its own, or stray bytes between markers.
  datatype Item =
    | Segment(marker: byte, payload: seq<byte>)
    | Bare(marker: byte)
    | Stray(bytes: seq<byte>)

  // The length field counts itself and the payload. A segment's marker is none
  // of the standalone or end markers.
  predicate WellFormed(item: Item) {
    match item
    case Segment(marker, payload) => |payload| + 2 < 0x10000 && !Ends(marker) && !Standalone(marker)
    case Bare(marker) => Standalone(marker)
    case Stray(bytes) => forall b :: b in bytes ==> b != 0xff
  }

  function Print(item: Item): seq<byte>
    requires WellFormed(item)
  {
    match item
    case Segment(marker, payload) => [0xff, marker, (|payload| + 2) / 256, (|payload| + 2) % 256] + payload
    case Bare(marker) => [0xff, marker]
    case Stray(bytes) => bytes
  }

  function PrintAll(items: seq<Item>): seq<byte>
    requires AllWellFormed(items)
  {
    if items == [] then [] else Print(items[0]) + PrintAll(items[1..])
  }

  predicate CarriesExif(item: Item) { item.Segment? && item.marker == 0xe1 && EXIF_HEADER <= item.payload }

  // Nothing, or an end marker and whatever follows it.
  predicate IsTail(tail: seq<byte>) { tail == [] || (|tail| >= 2 && tail[0] == 0xff && Ends(tail[1])) }

  lemma {:induction false} ScanStray(bytes: seq<byte>, rest: seq<byte>)
    requires forall b :: b in bytes ==> b != 0xff
    ensures Scan(bytes + rest) == Scan(rest)
    decreases |bytes|
  {
    if bytes == [] {
      assert bytes + rest == rest;
    } else {
      assert (bytes + rest)[0] == bytes[0] && bytes[0] in bytes;
      assert (bytes + rest)[1..] == bytes[1..] + rest;
      assert forall b :: b in bytes[1..] ==> b in bytes;
      ScanStray(bytes[1..], rest);
    }
  }

  lemma ScanBare(marker: byte, rest: seq<byte>)
    requires Standalone(marker)
    ensures Scan([0xff, marker] + rest) == Scan(rest)
  {
    assert ([0xff, marker] + rest)[2..] == rest;
  }

  lemma ScanSegment(marker: byte, payload: seq<byte>, rest: seq<byte>)
    requires WellFormed(Segment(marker, payload))
    ensures Scan(Print(Segment(marker, payload)) + rest) == (CarriesExif(Segment(marker, payload)) || Scan(rest))
  {
    hide EXIF_HEADER;
    var s := Print(Segment(marker, payload)) + rest;
    var n := |payload|;
    assert |EXIF_HEADER| == 6 by { HeaderLength(); }
    assert Length(s[2], s[3]) == n + 2;
    assert s[4 + n..] == rest;
    if n >= 6 { assert s[4..10] == payload[..6]; }
  }

  lemma HeaderLength()
    ensures |EXIF_HEADER| == 6
  {
  }

  predicate SomeExif(items: seq<Item>) { exists i :: 0 <= i < |items| && CarriesExif(items[i]) }

  predicate AllWellFormed(items: seq<Item>) { forall i :: 0 <= i < |items| ==> WellFormed(items[i]) }

  // Whatever follows what the printer wrote, the walk gets there: it says yes for
  // an EXIF segment among the items, and else as for what follows.
  lemma {:induction false} ScanPassesPrint(items: seq<Item>, rest: seq<byte>)
    requires AllWellFormed(items)
    ensures Scan(PrintAll(items) + rest) <==> SomeExif(items) || Scan(rest)
    decreases |items|
  {
    hide CarriesExif;
    if items == [] {
      assert PrintAll(items) + rest == rest;
    } else {
      var later := items[1..];
      var behind := PrintAll(later) + rest;
      assert PrintAll(items) + rest == Print(items[0]) + behind;
      assert forall i :: 0 < i < |items| ==> items[i] == later[i - 1];
      ScanPassesPrint(later, rest);
      ScanItem(items[0], behind);
      Shift(items);
    }
  }

  // What the printer wrote before the first end marker, the walk reads back: it
  // finds metadata exactly when a well-formed file carries an EXIF segment there.
  lemma ScanReadsPrint(items: seq<Item>, tail: seq<byte>)
    requires AllWellFormed(items) && IsTail(tail)
    ensures Scan(PrintAll(items) + tail) <==> SomeExif(items)
  {
    hide SomeExif, AllWellFormed;
    ScanPassesPrint(items, tail);
  }

  lemma Shift(items: seq<Item>)
    requires items != []
    ensures SomeExif(items) <==> CarriesExif(items[0]) || SomeExif(items[1..])
  {
    hide CarriesExif;
    assert forall i :: 0 < i < |items| ==> items[i] == items[1..][i - 1];
    if SomeExif(items[1..]) {
      var i :| 0 <= i < |items[1..]| && CarriesExif(items[1..][i]);
      assert CarriesExif(items[i + 1]);
    }
  }

  lemma ScanItem(item: Item, rest: seq<byte>)
    requires WellFormed(item)
    ensures Scan(Print(item) + rest) == (CarriesExif(item) || Scan(rest))
  {
    hide Scan;
    match item
    case Segment(marker, payload) => ScanSegment(marker, payload, rest);
    case Bare(marker) => ScanBare(marker, rest);
    case Stray(bytes) => ScanStray(bytes, rest);
  }

  lemma AfterSoi(rest: seq<byte>)
    ensures HasExif([0xff, 0xd8] + rest) == Scan(rest)
  {
    assert ([0xff, 0xd8] + rest)[2..] == rest;
  }

  lemma DetectsPrintedExif(items: seq<Item>, tail: seq<byte>)
    requires AllWellFormed(items) && IsTail(tail)
    ensures HasExif([0xff, 0xd8] + (PrintAll(items) + tail)) <==> SomeExif(items)
  {
    hide HasExif, SomeExif, AllWellFormed, IsTail;
    ScanReadsPrint(items, tail);
    AfterSoi(PrintAll(items) + tail);
  }

  // ---------- Arbitrary bytes ----------

  // An EXIF segment starts at this offset.
  predicate ExifAt(data: seq<byte>, o: nat) {
    o + 10 <= |data| && data[o] == 0xff && data[o + 1] == 0xe1 && data[o + 4..o + 10] == EXIF_HEADER
  }

  // A positive answer is never invented.
  lemma {:induction false} ScanFindsOne(s: seq<byte>)
    requires Scan(s)
    ensures exists o: nat :: ExifAt(s, o)
    decreases |s|
  {
    hide EXIF_HEADER;
    assert |EXIF_HEADER| == 6 by { HeaderLength(); }
    if s[0] != 0xff {
      ScanFindsOne(s[1..]);
      ExifMoves(s, 1);
    } else if Standalone(s[1]) {
      ScanFindsOne(s[2..]);
      ExifMoves(s, 2);
    } else if s[1] == 0xe1 && Length(s[2], s[3]) >= 8 && s[4..10] == EXIF_HEADER {
      assert ExifAt(s, 0);
    } else {
      var skip := 2 + Length(s[2], s[3]);
      ScanFindsOne(s[skip..]);
      ExifMoves(s, skip);
    }
  }

  lemma ExifMoves(s: seq<byte>, skip: nat)
    requires skip <= |s| && exists o: nat :: ExifAt(s[skip..], o)
    ensures exists o: nat :: ExifAt(s, o)
  {
    hide EXIF_HEADER;
    var o: nat :| ExifAt(s[skip..], o);
    assert s[skip..][o + 4..o + 10] == s[skip + o + 4..skip + o + 10];
    assert ExifAt(s, skip + o);
  }

  // ---------- Fill bytes ----------

  // The standard allows fill bytes before a marker. The walk reads one as a marker
  // of its own, whose length is the real marker and the byte after it.
  predicate FillSays(marker: byte, next: byte, rest: seq<byte>) {
    var length := Length(marker, next);
    2 <= length <= |rest| + 2 && Scan(rest[length - 2..])
  }

  lemma ScanFill(marker: byte, next: byte, rest: seq<byte>)
    ensures Scan([0xff, 0xff, marker, next] + rest) <==> FillSays(marker, next, rest)
  {
    var s := [0xff, 0xff, marker, next] + rest;
    var length := Length(marker, next);
    if 2 <= length <= |rest| + 2 { assert s[2 + length..] == rest[length - 2..]; }
  }

  lemma ScanShort(s: seq<byte>)
    requires |s| < 4
    ensures !Scan(s)
  {
  }

  // A file with a fill byte after any items: the walk says yes for an EXIF segment
  // among them, or else as it would at the place the misread length points to.
  lemma FillByteAnswer(items: seq<Item>, marker: byte, next: byte, rest: seq<byte>)
    requires AllWellFormed(items)
    ensures HasExif([0xff, 0xd8] + (PrintAll(items) + ([0xff, 0xff, marker, next] + rest)))
      <==> SomeExif(items) || FillSays(marker, next, rest)
  {
    hide HasExif, SomeExif, AllWellFormed, FillSays;
    var s := [0xff, 0xff, marker, next] + rest;
    AfterSoi(PrintAll(items) + s);
    ScanPassesPrint(items, s);
    ScanFill(marker, next, rest);
  }

  // The file as the standard reads it: items, one fill byte, more items that start
  // with a marker, and a tail.
  predicate StartsWithMarker(items: seq<Item>) { items != [] && !items[0].Stray? }

  function Filled(items: seq<Item>, later: seq<Item>, tail: seq<byte>): seq<byte>
    requires AllWellFormed(items) && AllWellFormed(later)
  {
    [0xff, 0xd8] + (PrintAll(items) + ([0xff] + (PrintAll(later) + tail)))
  }

  // Its bytes behind the fill byte: the marker prefix, the marker, and the rest.
  lemma LaterStarts(later: seq<Item>, tail: seq<byte>)
    requires AllWellFormed(later) && StartsWithMarker(later)
    ensures var s := PrintAll(later) + tail; |s| >= 2 && s[0] == 0xff && s[1] == later[0].marker
  {
    PrintStarts(later[0]);
    hide Print, WellFormed;
    var s := PrintAll(later) + tail;
    assert s == Print(later[0]) + (PrintAll(later[1..]) + tail);
  }

  lemma PrintStarts(item: Item)
    requires WellFormed(item) && !item.Stray?
    ensures |Print(item)| >= 2 && Print(item)[0] == 0xff && Print(item)[1] == item.marker
  {
  }

  // The walk's answer on such a file, and exactly when it is the right one.
  lemma FillByteRightIff(items: seq<Item>, later: seq<Item>, tail: seq<byte>)
    requires AllWellFormed(items) && AllWellFormed(later) && StartsWithMarker(later) && IsTail(tail)
    requires |PrintAll(later) + tail| >= 3
    ensures var s := PrintAll(later) + tail;
      var says := FillSays(s[1], s[2], s[3..]);
      && (HasExif(Filled(items, later, tail)) <==> SomeExif(items) || says)
      && ((HasExif(Filled(items, later, tail)) <==> SomeExif(items + later)) <==>
            SomeExif(items) || (says <==> SomeExif(later)))
  {
    hide HasExif, SomeExif, AllWellFormed, FillSays, PrintAll, IsTail;
    var s := PrintAll(later) + tail;
    LaterStarts(later, tail);
    assert [0xff] + s == [0xff, 0xff, s[1], s[2]] + s[3..];
    FillByteAnswer(items, s[1], s[2], s[3..]);
    SomeOfBoth(items, later);
  }

  lemma SomeOfBoth(items: seq<Item>, later: seq<Item>)
    ensures SomeExif(items + later) <==> SomeExif(items) || SomeExif(later)
  {
    hide CarriesExif;
    var all := items + later;
    if SomeExif(items) {
      var i :| 0 <= i < |items| && CarriesExif(items[i]);
      assert CarriesExif(all[i]);
    }
    if SomeExif(later) {
      var i :| 0 <= i < |later| && CarriesExif(later[i]);
      assert CarriesExif(all[|items| + i]);
    }
  }

  // When the misread length passes the end, only what stands before the fill byte
  // counts: the walk is then wrong exactly if the metadata comes after it.
  lemma FillByteHidesExif(items: seq<Item>, later: seq<Item>, tail: seq<byte>)
    requires AllWellFormed(items) && AllWellFormed(later) && StartsWithMarker(later) && IsTail(tail)
    requires var s := PrintAll(later) + tail; |s| >= 3 ==> Length(s[1], s[2]) > |s| - 1
    ensures HasExif(Filled(items, later, tail)) <==> SomeExif(items)
    ensures (HasExif(Filled(items, later, tail)) <==> SomeExif(items + later)) <==> SomeExif(items) || !SomeExif(later)
  {
    hide HasExif, SomeExif, AllWellFormed, PrintAll, IsTail;
    var s := PrintAll(later) + tail;
    SomeOfBoth(items, later);
    if |s| >= 3 {
      FillByteRightIff(items, later, tail);
    } else {
      AfterSoi(PrintAll(items) + ([0xff] + s));
      ScanPassesPrint(items, [0xff] + s);
      ScanShort([0xff] + s);
    }
  }

  // An APP1 marker misread as a length is at least 57,600: a fill byte hides the
  // segment it precedes from the walk in every file with less than that to go.
  lemma FillByteHidesApp1(items: seq<Item>, payload: seq<byte>, later: seq<Item>, tail: seq<byte>)
    requires AllWellFormed(items) && AllWellFormed(later) && WellFormed(Segment(0xe1, payload)) && IsTail(tail)
    requires |Print(Segment(0xe1, payload)) + (PrintAll(later) + tail)| <= 57600
    ensures AllWellFormed([Segment(0xe1, payload)] + later)
    ensures HasExif(Filled(items, [Segment(0xe1, payload)] + later, tail)) <==> SomeExif(items)
  {
    hide HasExif, SomeExif, IsTail;
    var segment := Segment(0xe1, payload);
    var all := [segment] + later;
    assert all[1..] == later;
    assert forall i :: 0 < i < |all| ==> all[i] == later[i - 1];
    var s := PrintAll(all) + tail;
    assert s == Print(segment) + (PrintAll(later) + tail);
    assert s[1] == 0xe1 && Length(s[1], s[2]) >= 57600;
    hide Print, PrintAll, AllWellFormed, WellFormed;
    FillByteHidesExif(items, all, tail);
  }
}
