/** A doll picture's calibration, kept in a PNG text chunk. */
module Calibration {
  import opened BigEndian
  import Crc
  import Cuts
  import Iteration
  import opened Options

  const SIGNATURE: seq<Byte> := [0x89, 0x50, 0x4e, 0x47, 0x0d, 0x0a, 0x1a, 0x0a]
  const IHDR: seq<Byte> := [0x49, 0x48, 0x44, 0x52]
  const IEND: seq<Byte> := [0x49, 0x45, 0x4e, 0x44]
  const TEXT: seq<Byte> := [0x74, 0x45, 0x58, 0x74]
  /** "vellum-meta" */
  const KEYWORD: seq<Byte> := [0x76, 0x65, 0x6c, 0x6c, 0x75, 0x6d, 0x2d, 0x6d, 0x65, 0x74, 0x61]

  datatype RawChunk = Chunk(kind: seq<Byte>, data: seq<Byte>)

  /** What a chunk's four-byte type and four-byte length can hold. */
  predicate Fits(c: RawChunk) {
    |c.kind| == 4 && |c.data| < 0x1_0000_0000
  }

  type Chunk = c: RawChunk | Fits(c) witness Chunk([0, 0, 0, 0], [])

  // ------------------------------------------------------------ the encoding

  /** A chunk as RFC 2083 section 3.2 lays it out, its CRC over the type and the data (section 3.4). */
  function Encoded(c: Chunk): (r: seq<Byte>)
    ensures |r| == 12 + |c.data|
  {
    ToBigEndian(|c.data|) + c.kind + c.data + ToBigEndian(Crc.RfcCrc(c.kind + c.data) as nat)
  }

  function EncodedAll(cs: seq<Chunk>): seq<Byte>
  {
    if cs == [] then [] else Encoded(cs[0]) + EncodedAll(cs[1..])
  }

  lemma {:induction false} EncodedAllJoins(a: seq<Chunk>, b: seq<Chunk>)
    ensures EncodedAll(a + b) == EncodedAll(a) + EncodedAll(b)
  {
    if a == [] {
      assert a + b == b;
    } else {
      assert (a + b)[1..] == a[1..] + b;
      EncodedAllJoins(a[1..], b);
      Cuts.JoinAssociates(Encoded(a[0]), EncodedAll(a[1..]), EncodedAll(b));
    }
  }

  // ------------------------------------------------------------- the parsing

  /** The chunks `s` holds, up to the end chunk or to fewer than twelve bytes; none
      when a chunk runs past the end. */
  function Parsed(s: seq<Byte>): Option<seq<Chunk>>
    decreases |s|
  {
    if |s| < 12 then Some([])
    else
      var len := OfBigEndian(s[..4]);
      if 12 + len > |s| then None
      else
        var chunk: Chunk := Chunk(s[4..8], s[8..8 + len]);
        if chunk.kind == IEND then Some([chunk])
        else
          match Parsed(s[12 + len..])
          case None => None
          case Some(rest) => Some([chunk] + rest)
  }

  function ChunksOf(bytes: seq<Byte>): Option<seq<Chunk>> {
    if |bytes| < 8 || bytes[..8] != SIGNATURE then None else Parsed(bytes[8..])
  }

  /** Nothing after the end chunk. */
  ghost predicate Proper(cs: seq<Chunk>) {
    forall i :: 0 <= i < |cs| && cs[i].kind == IEND ==> i == |cs| - 1
  }

  lemma {:induction false} ParsedIsProper(s: seq<Byte>)
    requires Parsed(s).Some?
    ensures Proper(Parsed(s).value)
    decreases |s|
  {
    if |s| >= 12 {
      var len := OfBigEndian(s[..4]);
      var chunk := Chunk(s[4..8], s[8..8 + len]);
      if chunk.kind != IEND {
        ParsedIsProper(s[12 + len..]);
      }
    }
  }

  lemma ParsedFirst(c: Chunk, rest: seq<Byte>)
    ensures Parsed(Encoded(c) + rest) ==
            if c.kind == IEND then Some([c])
            else match Parsed(rest)
                 case None => None
                 case Some(cs) => Some([c] + cs)
  {
    Cuts.FourParts(ToBigEndian(|c.data|), c.kind, c.data, ToBigEndian(Crc.RfcCrc(c.kind + c.data) as nat), rest);
  }

  lemma ProperTail(cs: seq<Chunk>)
    requires Proper(cs) && cs != []
    ensures Proper(cs[1..])
    ensures cs[0].kind == IEND ==> cs[1..] == []
  {
    assert forall i :: 0 <= i < |cs[1..]| ==> cs[1..][i] == cs[i + 1];
  }

  lemma ParsedOneMore(first: Chunk, rest: seq<Chunk>, bytes: seq<Byte>)
    requires first.kind == IEND ==> rest == []
    requires Parsed(bytes) == Some(rest)
    ensures Parsed(Encoded(first) + bytes) == Some([first] + rest)
  {
    ParsedFirst(first, bytes);
    Cuts.HeadAndTail([first]);
  }

  /** Writing chunks and reading them back gives the same chunks. */
  lemma {:induction false} ParsedEncoded(cs: seq<Chunk>, bytes: seq<Byte>)
    requires Proper(cs) && bytes == EncodedAll(cs)
    ensures Parsed(bytes) == Some(cs)
    decreases |cs|
  {
    if cs != [] {
      Cuts.HeadAndTail(cs);
      ProperTail(cs);
      ParsedEncoded(cs[1..], EncodedAll(cs[1..]));
      ParsedOneMore(cs[0], cs[1..], EncodedAll(cs[1..]));
    }
  }

  function Prepended(before: seq<Chunk>, rest: Option<seq<Chunk>>): Option<seq<Chunk>> {
    match rest
    case None => None
    case Some(cs) => Some(before + cs)
  }

  lemma PrependedNothing(rest: Option<seq<Chunk>>)
    ensures Prepended([], rest) == rest
  {
    if rest.Some? {
      Cuts.Nothing(rest.value);
    }
  }

  lemma PrependedTwice(a: seq<Chunk>, b: seq<Chunk>, rest: Option<seq<Chunk>>)
    ensures Prepended(a, Prepended(b, rest)) == Prepended(a + b, rest)
  {
    if rest.Some? {
      Cuts.JoinAssociates(a, b, rest.value);
    }
  }

  lemma ParsedAt(bytes: seq<Byte>, at: nat)
    requires at + 12 <= |bytes|
    ensures var len := OfBigEndian(bytes[at..at + 4]);
            var end := at + 8 + len;
            Parsed(bytes[at..]) ==
            if end + 4 > |bytes| then None
            else
              var chunk: Chunk := Chunk(bytes[at + 4..at + 8], bytes[at + 8..end]);
              if chunk.kind == IEND then Some([chunk]) else Prepended([chunk], Parsed(bytes[end + 4..]))
  {
    var len := OfBigEndian(bytes[at..at + 4]);
    assert bytes[at..][..4] == bytes[at..at + 4];
    if at + 12 + len <= |bytes| {
      Cuts.FromHere(bytes, at, len);
    }
  }

  method Chunks(bytes: seq<Byte>) returns (r: Option<seq<Chunk>>)
    ensures r == ChunksOf(bytes)
  {
    if |bytes| < 8 || bytes[..8] != SIGNATURE {
      return None;
    }
    var out: seq<Chunk> := [];
    var at := 8;
    ghost var all := Parsed(bytes[8..]);
    PrependedNothing(all);
    while at + 12 <= |bytes|
      invariant 8 <= at <= |bytes|
      invariant all == Prepended(out, Parsed(bytes[at..]))
    {
      var len := OfBigEndian(bytes[at..at + 4]);
      var kind := bytes[at + 4..at + 8];
      var end := at + 8 + len;
      ParsedAt(bytes, at);
      if end + 4 > |bytes| {
        return None;
      }
      var chunk: Chunk := Chunk(kind, bytes[at + 8..end]);
      PrependedTwice(out, [chunk], Parsed(bytes[end + 4..]));
      out := out + [chunk];
      at := end + 4;
      if kind == IEND {
        return Some(out);
      }
    }
    Cuts.Nothing(out);
    r := Some(out);
  }

  // -------------------------------------------------------- the text it holds

  /** The first zero byte. */
  function Nul(data: seq<Byte>): (r: Option<nat>)
    ensures r.Some? ==> r.value < |data| && data[r.value] == 0 && forall i :: 0 <= i < r.value ==> data[i] != 0
    ensures r.None? ==> forall i :: 0 <= i < |data| ==> data[i] != 0
  {
    if data == [] then None
    else if data[0] == 0 then Some(0)
    else
      match Nul(data[1..])
      case None => None
      case Some(i) => Some(i + 1)
  }

  predicate Ours(c: RawChunk) {
    c.kind == TEXT && Nul(c.data).Some? && c.data[..Nul(c.data).value] == KEYWORD
  }

  function TextChunk(text: seq<Byte>): (c: RawChunk)
    ensures Ours(c) && c.data[Nul(c.data).value + 1..] == text
    ensures Fits(c) <==> |KEYWORD| + 1 + |text| < 0x1_0000_0000
  {
    var data := KEYWORD + [0] + text;
    assert data[|KEYWORD|] == 0;
    assert Nul(data).value == |KEYWORD|;
    assert data[..|KEYWORD|] == KEYWORD;
    Chunk(TEXT, data)
  }

  /** The first calibration chunk whose text is UTF-8, as `utf8` judges it. */
  function EmbeddedIn(utf8: seq<Byte> -> bool, cs: seq<Chunk>): Option<seq<Byte>> {
    if cs == [] then None
    else if Ours(cs[0]) && utf8(cs[0].data[Nul(cs[0].data).value + 1..]) then
      Some(cs[0].data[Nul(cs[0].data).value + 1..])
    else EmbeddedIn(utf8, cs[1..])
  }

  function Embedded(utf8: seq<Byte> -> bool, bytes: seq<Byte>): Option<seq<Byte>> {
    match ChunksOf(bytes)
    case None => None
    case Some(cs) => EmbeddedIn(utf8, cs)
  }

  // -------------------------------------------------------------- the writing

  /** Every chunk but the calibration's. */
  function Others(cs: seq<Chunk>): (r: seq<Chunk>)
    ensures forall c :: c in r <==> c in cs && !Ours(c)
  {
    if cs == [] then []
    else (if Ours(cs[0]) then [] else [cs[0]]) + Others(cs[1..])
  }

  predicate HasHeader(cs: seq<Chunk>) {
    exists c :: c in cs && c.kind == IHDR
  }

  /** `new` put after the first header chunk. */
  function AfterHeader(cs: seq<Chunk>, new': Chunk): seq<Chunk> {
    if cs == [] then []
    else if cs[0].kind == IHDR then [cs[0], new'] + cs[1..]
    else [cs[0]] + AfterHeader(cs[1..], new')
  }

  /** What a picture's chunks become. */
  function Rewritten(cs: seq<Chunk>, text: seq<Byte>): seq<Chunk>
    requires Fits(TextChunk(text))
  {
    AfterHeader(Others(cs), TextChunk(text))
  }

  lemma {:induction false} OthersJoins(a: seq<Chunk>, b: seq<Chunk>)
    ensures Others(a + b) == Others(a) + Others(b)
  {
    if a == [] {
      assert a + b == b;
    } else {
      assert (a + b)[1..] == a[1..] + b;
      OthersJoins(a[1..], b);
    }
  }

  /** Putting the calibration in and taking it out again leaves the rest as it was. */
  lemma {:induction false} OthersOfAfterHeader(cs: seq<Chunk>, new': Chunk)
    requires Ours(new')
    ensures Others(AfterHeader(cs, new')) == Others(cs)
  {
    if cs != [] {
      if cs[0].kind == IHDR {
        assert [cs[0], new'] + cs[1..] == [cs[0]] + ([new'] + cs[1..]);
        assert ([cs[0]] + ([new'] + cs[1..]))[1..] == [new'] + cs[1..];
        assert ([new'] + cs[1..])[1..] == cs[1..];
      } else {
        OthersOfAfterHeader(cs[1..], new');
      }
    }
  }

  lemma {:induction false} OthersIdempotent(cs: seq<Chunk>)
    requires forall c :: c in cs ==> !Ours(c)
    ensures Others(cs) == cs
  {
    if cs != [] {
      OthersIdempotent(cs[1..]);
    }
  }

  lemma {:induction false} OthersProper(cs: seq<Chunk>)
    requires Proper(cs)
    ensures Proper(Others(cs))
  {
    if cs != [] {
      assert forall i :: 0 <= i < |cs[1..]| ==> cs[1..][i] == cs[i + 1];
      OthersProper(cs[1..]);
      if cs[0].kind == IEND {
        assert cs[1..] == [];
      }
    }
  }

  lemma {:induction false} AfterHeaderProper(cs: seq<Chunk>, new': Chunk)
    requires Proper(cs) && new'.kind != IEND
    ensures Proper(AfterHeader(cs, new'))
    ensures cs != [] ==> AfterHeader(cs, new') != []
  {
    if cs != [] {
      assert forall i :: 0 <= i < |cs[1..]| ==> cs[1..][i] == cs[i + 1];
      if cs[0].kind != IHDR {
        AfterHeaderProper(cs[1..], new');
        if cs[0].kind == IEND {
          assert cs[1..] == [];
        }
      }
    }
  }

  function WithChunkOf(bytes: seq<Byte>, text: seq<Byte>): Option<seq<Byte>> {
    match ChunksOf(bytes)
    case None => None
    case Some(cs) =>
      if HasHeader(cs) && Fits(TextChunk(text)) then
        Some(SIGNATURE + EncodedAll(Rewritten(cs, text)))
      else None
  }

  lemma {:induction false} HasHeaderOfOthers(cs: seq<Chunk>)
    ensures HasHeader(Others(cs)) <==> HasHeader(cs)
  {
    if HasHeader(cs) {
      var c :| c in cs && c.kind == IHDR;
      assert c in Others(cs);
    }
  }

  lemma RewrittenProper(cs: seq<Chunk>, text: seq<Byte>)
    requires Proper(cs) && Fits(TextChunk(text))
    ensures Proper(Rewritten(cs, text))
  {
    OthersProper(cs);
    AfterHeaderProper(Others(cs), TextChunk(text));
  }

  /** One chunk put out: its length, kind and data, and their CRC; none when its data is too long for a length. */
  method PushChunk(out: seq<Byte>, kind: seq<Byte>, data: seq<Byte>) returns (r: Option<seq<Byte>>)
    requires |kind| == 4
    ensures r == if Fits(Chunk(kind, data)) then Some(out + Encoded(Chunk(kind, data))) else None
  {
    if |data| >= 0x1_0000_0000 {
      return None;
    }
    var crc := Crc.Crc32([kind, data]);
    Iteration.JoinedPair(kind, data);
    var length, check := ToBigEndian(|data|), ToBigEndian(crc as nat);
    Cuts.AppendFour(out, length, kind, data, check);
    r := Some(out + length + kind + data + check);
  }

  lemma {:induction false} AfterHeaderOneMore(cs: seq<Chunk>, c: Chunk, new': Chunk)
    ensures AfterHeader(cs + [c], new') ==
            if HasHeader(cs) || c.kind != IHDR then AfterHeader(cs, new') + [c]
            else AfterHeader(cs, new') + [c] + [new']
  {
    if cs == [] {
      Cuts.Nothing([c]);
      assert [c][1..] == [];
    } else {
      Cuts.TailOfJoin(cs, [c]);
      if cs[0].kind != IHDR {
        AfterHeaderOneMore(cs[1..], c, new');
        assert HasHeader(cs) <==> HasHeader(cs[1..]);
        Cuts.JoinAssociates([cs[0]], AfterHeader(cs[1..], new'), [c]);
        Cuts.JoinAssociates([cs[0]], AfterHeader(cs[1..], new') + [c], [new']);
      } else {
        Cuts.JoinAssociates([cs[0], new'], cs[1..], [c]);
      }
    }
  }

  lemma RewrittenOneMore(cs: seq<Chunk>, c: Chunk, new': Chunk)
    ensures AfterHeader(Others(cs + [c]), new') ==
            if Ours(c) then AfterHeader(Others(cs), new')
            else if HasHeader(cs) || c.kind != IHDR then AfterHeader(Others(cs), new') + [c]
            else AfterHeader(Others(cs), new') + [c] + [new']
  {
    OthersJoins(cs, [c]);
    OthersOfOne(c);
    HasHeaderOfOthers(cs);
    if Ours(c) {
      Cuts.Nothing(Others(cs));
    } else {
      AfterHeaderOneMore(Others(cs), c, new');
    }
  }

  lemma OthersOfOne(c: Chunk)
    ensures Others([c]) == if Ours(c) then [] else [c]
  {
    Cuts.TailOfOne(c);
  }

  /** The bytes put out for the chunks so far: the signature and those chunks. */
  ghost function Written(cs: seq<Chunk>): seq<Byte> {
    SIGNATURE + EncodedAll(cs)
  }

  lemma {:induction false} WrittenOneMore(cs: seq<Chunk>, c: Chunk)
    ensures Written(cs + [c]) == Written(cs) + Encoded(c)
  {
    EncodedAllJoins(cs, [c]);
    Cuts.Nothing(Encoded(c));
    Cuts.TailOfOne(c);
    Cuts.JoinAssociates(SIGNATURE, EncodedAll(cs), Encoded(c));
  }

  lemma HeaderOneMore(cs: seq<Chunk>, i: nat)
    requires i < |cs|
    ensures HasHeader(cs[..i + 1]) <==> HasHeader(cs[..i]) || cs[i].kind == IHDR
    ensures cs[i].kind == IHDR ==> HasHeader(cs)
  {
    Cuts.OneLonger(cs, i);
  }

  /** One chunk of the old picture onto the new one, and the calibration after it
      when it is the first header; none when the calibration cannot be a chunk. */
  method WriteNext(out: seq<Byte>, put: bool, c: Chunk, text: seq<Byte>, ghost before: seq<Chunk>)
    returns (r: Option<seq<Byte>>, nowPut: bool)
    requires put <==> HasHeader(before)
    requires Fits(TextChunk(text)) ==> out == Written(AfterHeader(Others(before), TextChunk(text)))
    requires put ==> Fits(TextChunk(text))
    ensures nowPut <==> put || c.kind == IHDR
    ensures r.None? <==> !Fits(TextChunk(text)) && !put && c.kind == IHDR
    ensures r.Some? && Fits(TextChunk(text)) ==> r.value == Written(AfterHeader(Others(before + [c]), TextChunk(text)))
  {
    nowPut := put;
    var nul := Nul(c.data);
    var ours := c.kind == TEXT && nul.Some? && c.data[..nul.value] == KEYWORD;
    if Fits(TextChunk(text)) {
      RewrittenOneMore(before, c, TextChunk(text));
    }
    if ours {
      return Some(out), nowPut;
    }
    r := PushChunk(out, c.kind, c.data);
    ghost var chunks := if Fits(TextChunk(text)) then AfterHeader(Others(before), TextChunk(text)) else [];
    WrittenOneMore(chunks, c);
    if !put && c.kind == IHDR {
      nowPut := true;
      if Fits(TextChunk(text)) {
        WrittenOneMore(chunks + [c], TextChunk(text));
      }
      r := PushChunk(r.value, TEXT, KEYWORD + [0] + text);
    }
  }

  /** Copies a picture chunk by chunk, less its calibrations, with a new one after the header. */
  method WithChunk(bytes: seq<Byte>, text: seq<Byte>) returns (r: Option<seq<Byte>>)
    ensures r == WithChunkOf(bytes, text)
  {
    var out := SIGNATURE;
    var put := false;
    var parsed := Chunks(bytes);
    if parsed.None? {
      return None;
    }
    var cs := parsed.value;
    Cuts.Nothing(SIGNATURE);
    for i := 0 to |cs|
      invariant put <==> HasHeader(cs[..i])
      invariant put ==> Fits(TextChunk(text))
      invariant Fits(TextChunk(text)) ==> out == Written(AfterHeader(Others(cs[..i]), TextChunk(text)))
    {
      HeaderOneMore(cs, i);
      Cuts.OneLonger(cs, i);
      var next, nowPut := WriteNext(out, put, cs[i], text, cs[..i]);
      if next.None? {
        return None;
      }
      out, put := next.value, nowPut;
    }
    Cuts.Whole(cs);
    r := if put then Some(out) else None;
  }

  // ------------------------------------------------------------ what it means

  /** A picture written and read again: its other chunks as they were and in
      order, with the one new calibration after the first header. */
  lemma WrittenIsRead(bytes: seq<Byte>, text: seq<Byte>)
    requires WithChunkOf(bytes, text).Some?
    ensures ChunksOf(WithChunkOf(bytes, text).value) == Some(Rewritten(ChunksOf(bytes).value, text))
  {
    var cs := ChunksOf(bytes).value;
    var out := WithChunkOf(bytes, text).value;
    ParsedIsProper(bytes[8..]);
    RewrittenProper(cs, text);
    assert out[..8] == SIGNATURE && out[8..] == EncodedAll(Rewritten(cs, text));
    ParsedEncoded(Rewritten(cs, text), out[8..]);
  }

  lemma {:induction false} EmbeddedAfterHeader(utf8: seq<Byte> -> bool, cs: seq<Chunk>, text: seq<Byte>)
    requires forall c :: c in cs ==> !Ours(c)
    requires HasHeader(cs) && Fits(TextChunk(text)) && utf8(text)
    ensures EmbeddedIn(utf8, AfterHeader(cs, TextChunk(text))) == Some(text)
  {
    var new' := TextChunk(text);
    if cs[0].kind == IHDR {
      Cuts.JoinAssociates([cs[0]], [new'], cs[1..]);
      assert ([cs[0], new'] + cs[1..])[1..] == [new'] + cs[1..];
    } else {
      EmbeddedAfterHeader(utf8, cs[1..], text);
    }
  }

  /** The text written is the text read, whatever calibration the picture held before. */
  lemma WrittenIsEmbedded(utf8: seq<Byte> -> bool, bytes: seq<Byte>, text: seq<Byte>)
    requires WithChunkOf(bytes, text).Some? && utf8(text)
    ensures Embedded(utf8, WithChunkOf(bytes, text).value) == Some(text)
  {
    WrittenIsRead(bytes, text);
    HasHeaderOfOthers(ChunksOf(bytes).value);
    EmbeddedAfterHeader(utf8, Others(ChunksOf(bytes).value), text);
  }

  /** Writing twice is writing the second. */
  lemma WrittenTwice(bytes: seq<Byte>, first: seq<Byte>, second: seq<Byte>)
    requires WithChunkOf(bytes, first).Some?
    ensures WithChunkOf(WithChunkOf(bytes, first).value, second) == WithChunkOf(bytes, second)
  {
    var cs := ChunksOf(bytes).value;
    WrittenIsRead(bytes, first);
    OthersOfAfterHeader(Others(cs), TextChunk(first));
    OthersIdempotent(Others(cs));
    HasHeaderOfOthers(cs);
    HasHeaderOfOthers(Rewritten(cs, first));
  }

  /** Whether `s` is whole chunks to its end, every stored CRC right. */
  ghost predicate Sound(s: seq<Byte>)
    decreases |s|
  {
    if |s| < 12 then s == []
    else
      var len := OfBigEndian(s[..4]);
      && 12 + len <= |s|
      && s[8 + len..12 + len] == ToBigEndian(Crc.RfcCrc(s[4..8] + s[8..8 + len]) as nat)
      && (if s[4..8] == IEND then s[12 + len..] == [] else Sound(s[12 + len..]))
  }

  /** A chunk written back is what was read exactly when its stored CRC was right. */
  lemma RewriteOfOne(s: seq<Byte>, chunk: Chunk, after: seq<Byte>)
    requires |s| >= 12 && |chunk.data| == OfBigEndian(s[..4]) && 12 + |chunk.data| <= |s|
    requires chunk == Chunk(s[4..8], s[8..8 + |chunk.data|])
    ensures var len := |chunk.data|;
            Encoded(chunk) + after == s <==>
            && s[8 + len..12 + len] == ToBigEndian(Crc.RfcCrc(chunk.kind + chunk.data) as nat)
            && s[12 + len..] == after
  {
    var len := |chunk.data|;
    var check := ToBigEndian(Crc.RfcCrc(chunk.kind + chunk.data) as nat);
    OneReading(s[..4], ToBigEndian(len));
    Cuts.FiveParts(s, len);
    Cuts.SameEnd(s[..4] + chunk.kind + chunk.data, s[8 + len..12 + len], s[12 + len..], check, after);
  }

  lemma EncodedAllFirst(chunk: Chunk, cs: seq<Chunk>)
    ensures EncodedAll([chunk] + cs) == Encoded(chunk) + EncodedAll(cs)
  {
    Cuts.TailOfJoin([chunk], cs);
    Cuts.TailOfOne(chunk);
    Cuts.Nothing(cs);
  }

  lemma RewriteOfFirst(s: seq<Byte>, chunk: Chunk, cs: seq<Chunk>, good: bool)
    requires |s| >= 12 && |chunk.data| == OfBigEndian(s[..4]) && 12 + |chunk.data| <= |s|
    requires chunk == Chunk(s[4..8], s[8..8 + |chunk.data|])
    requires EncodedAll(cs) == s[12 + |chunk.data|..] <==> good
    ensures var len := |chunk.data|;
            EncodedAll([chunk] + cs) == s <==>
            s[8 + len..12 + len] == ToBigEndian(Crc.RfcCrc(chunk.kind + chunk.data) as nat) && good
  {
    EncodedAllFirst(chunk, cs);
    RewriteOfOne(s, chunk, EncodedAll(cs));
  }

  /** Reading and writing back gives the same bytes exactly for a sound picture. */
  lemma {:induction false} RewriteOfParsed(s: seq<Byte>)
    requires Parsed(s).Some?
    ensures EncodedAll(Parsed(s).value) == s <==> Sound(s)
    decreases |s|
  {
    if |s| >= 12 {
      var len := OfBigEndian(s[..4]);
      var chunk: Chunk := Chunk(s[4..8], s[8..8 + len]);
      var rest := s[12 + len..];
      if chunk.kind == IEND {
        Cuts.Nothing([chunk]);
        RewriteOfFirst(s, chunk, [], rest == []);
      } else {
        RewriteOfParsed(rest);
        RewriteOfFirst(s, chunk, Parsed(rest).value, Sound(rest));
      }
    }
  }

  lemma WrittenBack(bytes: seq<Byte>, cs: seq<Chunk>)
    requires ChunksOf(bytes) == Some(cs)
    ensures Written(cs) == bytes <==> Sound(bytes[8..])
  {
    RewriteOfParsed(bytes[8..]);
    Cuts.TwoParts(bytes, 8);
    Cuts.SameEnd([], bytes[..8], bytes[8..], SIGNATURE, EncodedAll(cs));
    Cuts.Nothing(bytes[..8]);
    Cuts.Nothing(SIGNATURE);
  }

  /** Whatever the old picture was, the new one is whole chunks to its end and every CRC in it is right. */
  lemma WrittenIsSound(bytes: seq<Byte>, text: seq<Byte>, out: seq<Byte>)
    requires WithChunkOf(bytes, text) == Some(out)
    ensures Sound(out[8..])
  {
    WrittenIsRead(bytes, text);
    WrittenBack(out, Rewritten(ChunksOf(bytes).value, text));
  }

  // ------------------------------------------------------------ nothing else

  /** The bytes less those of the calibration's own chunks. */
  ghost function Stripped(s: seq<Byte>): (r: seq<Byte>)
    decreases |s|
  {
    if |s| < 12 then s
    else
      var len := OfBigEndian(s[..4]);
      if 12 + len > |s| || s[4..8] == IEND then s
      else (if Ours(Chunk(s[4..8], s[8..8 + len])) then [] else s[..12 + len]) + Stripped(s[12 + len..])
  }

  /** Whether `s` is whole chunks to its end, every stored CRC but the calibration's own right. */
  ghost predicate SoundElse(s: seq<Byte>)
    decreases |s|
  {
    if |s| < 12 then s == []
    else
      var len := OfBigEndian(s[..4]);
      && 12 + len <= |s|
      && (Ours(Chunk(s[4..8], s[8..8 + len]))
          || s[8 + len..12 + len] == ToBigEndian(Crc.RfcCrc(s[4..8] + s[8..8 + len]) as nat))
      && (if s[4..8] == IEND then s[12 + len..] == [] else SoundElse(s[12 + len..]))
  }

  lemma StrippedFirst(c: Chunk, rest: seq<Byte>)
    ensures Stripped(Encoded(c) + rest) ==
            if c.kind == IEND then Encoded(c) + rest else (if Ours(c) then [] else Encoded(c)) + Stripped(rest)
  {
    Cuts.FourParts(ToBigEndian(|c.data|), c.kind, c.data, ToBigEndian(Crc.RfcCrc(c.kind + c.data) as nat), rest);
    Cuts.CutApart(Encoded(c), rest);
  }

  /** What is stripped of chunks written is the others written. */
  lemma {:induction false} StrippedEncoded(cs: seq<Chunk>)
    requires Proper(cs)
    ensures Stripped(EncodedAll(cs)) == EncodedAll(Others(cs))
  {
    if cs != [] {
      ProperTail(cs);
      StrippedEncoded(cs[1..]);
      StrippedFirst(cs[0], EncodedAll(cs[1..]));
      if Ours(cs[0]) {
        Cuts.Nothing(EncodedAll(Others(cs[1..])));
        Cuts.Nothing(Others(cs[1..]));
      } else {
        EncodedAllFirst(cs[0], Others(cs[1..]));
      }
    }
  }

  /** One chunk not ours, written back before what the rest becomes. */
  lemma StrippedKeepsOne(s: seq<Byte>, chunk: Chunk, others: seq<Byte>, rest: seq<Byte>)
    requires |s| >= 12 && |chunk.data| == OfBigEndian(s[..4]) && 12 + |chunk.data| <= |s|
    requires chunk == Chunk(s[4..8], s[8..8 + |chunk.data|])
    ensures var len := |chunk.data|;
            Encoded(chunk) + others == s[..12 + len] + rest <==>
            s[8 + len..12 + len] == ToBigEndian(Crc.RfcCrc(chunk.kind + chunk.data) as nat) && others == rest
  {
    var len := |chunk.data|;
    var own := s[..12 + len];
    Cuts.CutOfFront(s, 12 + len, 0, 4);
    Cuts.CutOfFront(s, 12 + len, 4, 8);
    Cuts.CutOfFront(s, 12 + len, 8, 8 + len);
    Cuts.CutOfFront(s, 12 + len, 8 + len, 12 + len);
    assert own[12 + len..] == [];
    RewriteOfOne(own, chunk, []);
    Cuts.Nothing(Encoded(chunk));
    Cuts.SameEnd([], own, rest, Encoded(chunk), others);
    Cuts.Nothing(own);
  }

  lemma StrippedEnd(s: seq<Byte>, chunk: Chunk)
    requires |s| >= 12 && |chunk.data| == OfBigEndian(s[..4]) && 12 + |chunk.data| <= |s|
    requires chunk == Chunk(s[4..8], s[8..8 + |chunk.data|]) && chunk.kind == IEND
    ensures EncodedAll(Others([chunk])) == Stripped(s) <==> SoundElse(s)
  {
    OthersOfOne(chunk);
    EncodedAllFirst(chunk, []);
    Cuts.Nothing([chunk]);
    Cuts.TwoParts(s, 12 + |chunk.data|);
    StrippedKeepsOne(s, chunk, [], s[12 + |chunk.data|..]);
  }

  lemma StrippedNext(s: seq<Byte>, chunk: Chunk, cs: seq<Chunk>)
    requires |s| >= 12 && |chunk.data| == OfBigEndian(s[..4]) && 12 + |chunk.data| <= |s|
    requires chunk == Chunk(s[4..8], s[8..8 + |chunk.data|]) && chunk.kind != IEND
    requires EncodedAll(Others(cs)) == Stripped(s[12 + |chunk.data|..]) <==> SoundElse(s[12 + |chunk.data|..])
    ensures EncodedAll(Others([chunk] + cs)) == Stripped(s) <==> SoundElse(s)
  {
    var rest := s[12 + |chunk.data|..];
    OthersJoins([chunk], cs);
    OthersOfOne(chunk);
    if Ours(chunk) {
      Cuts.Nothing(Others(cs));
      Cuts.Nothing(Stripped(rest));
    } else {
      EncodedAllFirst(chunk, Others(cs));
      StrippedKeepsOne(s, chunk, EncodedAll(Others(cs)), Stripped(rest));
    }
  }

  /** Writing the other chunks back gives the bytes stripped exactly when all but ours is sound. */
  lemma {:induction false} StrippedParsed(s: seq<Byte>)
    requires Parsed(s).Some?
    ensures EncodedAll(Others(Parsed(s).value)) == Stripped(s) <==> SoundElse(s)
    decreases |s|
  {
    if |s| >= 12 {
      var len := OfBigEndian(s[..4]);
      var chunk: Chunk := Chunk(s[4..8], s[8..8 + len]);
      if chunk.kind == IEND {
        StrippedEnd(s, chunk);
      } else {
        StrippedParsed(s[12 + len..]);
        StrippedNext(s, chunk, Parsed(s[12 + len..]).value);
      }
    }
  }

  /** Whether the writing touches nothing but the calibration, for every picture: less the
      calibration's own chunks the bytes are the old ones exactly when the old picture was
      whole chunks with nothing after the end chunk and every other CRC in it was right. */
  lemma NothingElseTouched(bytes: seq<Byte>, text: seq<Byte>, out: seq<Byte>)
    requires WithChunkOf(bytes, text) == Some(out)
    ensures out[..8] == bytes[..8]
    ensures Stripped(out[8..]) == Stripped(bytes[8..]) <==> SoundElse(bytes[8..])
  {
    var cs := ChunksOf(bytes).value;
    ParsedIsProper(bytes[8..]);
    RewrittenProper(cs, text);
    StrippedEncoded(Rewritten(cs, text));
    OthersOfAfterHeader(Others(cs), TextChunk(text));
    OthersIdempotent(Others(cs));
    StrippedParsed(bytes[8..]);
    assert out[8..] == EncodedAll(Rewritten(cs, text));
  }

  // ------------------------------------------------------------ the failing input

  /** What follows the end chunk is not read. */
  lemma {:induction false} ParsedToTheEnd(cs: seq<Chunk>, extra: seq<Byte>)
    requires Proper(cs) && cs != [] && cs[|cs| - 1].kind == IEND
    ensures Parsed(EncodedAll(cs) + extra) == Some(cs)
  {
    var rest := EncodedAll(cs[1..]);
    Cuts.JoinAssociates(Encoded(cs[0]), rest, extra);
    ParsedFirst(cs[0], rest + extra);
    ProperTail(cs);
    Cuts.HeadAndTail(cs);
    if cs[0].kind == IEND {
      Cuts.Nothing([cs[0]]);
    } else {
      ParsedToTheEnd(cs[1..], extra);
    }
  }

  lemma {:induction false} StrippedToTheEnd(cs: seq<Chunk>, extra: seq<Byte>)
    requires Proper(cs) && cs != [] && cs[|cs| - 1].kind == IEND
    ensures Stripped(EncodedAll(cs) + extra) == EncodedAll(Others(cs)) + extra
  {
    var c, rest := cs[0], EncodedAll(cs[1..]);
    Cuts.JoinAssociates(Encoded(c), rest, extra);
    StrippedFirst(c, rest + extra);
    ProperTail(cs);
    OthersFirst(cs);
    if c.kind == IEND {
      Cuts.Nothing(extra);
      Cuts.Nothing(Encoded(c));
    } else {
      StrippedToTheEnd(cs[1..], extra);
      Cuts.JoinAssociates(if Ours(c) then [] else Encoded(c), EncodedAll(Others(cs[1..])), extra);
    }
  }

  lemma OthersFirst(cs: seq<Chunk>)
    requires cs != []
    ensures EncodedAll(Others(cs)) == (if Ours(cs[0]) then [] else Encoded(cs[0])) + EncodedAll(Others(cs[1..]))
  {
    if Ours(cs[0]) {
      Cuts.Nothing(EncodedAll(Others(cs[1..])));
      Cuts.Nothing(Others(cs[1..]));
    } else {
      EncodedAllFirst(cs[0], Others(cs[1..]));
    }
  }

  lemma ReadAgain(cs: seq<Chunk>, extra: seq<Byte>)
    requires Proper(cs) && cs != [] && cs[|cs| - 1].kind == IEND
    ensures ChunksOf(Written(cs) + extra) == Some(cs) && ChunksOf(Written(cs)) == Some(cs)
    ensures (Written(cs) + extra)[8..] == EncodedAll(cs) + extra
  {
    Cuts.JoinAssociates(SIGNATURE, EncodedAll(cs), extra);
    Cuts.CutApart(SIGNATURE, EncodedAll(cs) + extra);
    Cuts.CutApart(SIGNATURE, EncodedAll(cs));
    ParsedToTheEnd(cs, extra);
    ParsedEncoded(cs, EncodedAll(cs));
  }

  lemma StrippedWritten(cs: seq<Chunk>, text: seq<Byte>)
    requires Proper(cs) && Fits(TextChunk(text))
    ensures Stripped(EncodedAll(Rewritten(cs, text))) == EncodedAll(Others(cs))
  {
    RewrittenProper(cs, text);
    StrippedEncoded(Rewritten(cs, text));
    OthersOfAfterHeader(Others(cs), TextChunk(text));
    OthersIdempotent(Others(cs));
  }

  /** Anything after the end chunk is dropped by the writing. */
  lemma TrailingIsDropped(cs: seq<Chunk>, extra: seq<Byte>, text: seq<Byte>)
    requires Proper(cs) && HasHeader(cs) && cs[|cs| - 1].kind == IEND && extra != [] && Fits(TextChunk(text))
    ensures var bytes := Written(cs) + extra;
            && WithChunkOf(bytes, text).Some? && WithChunkOf(bytes, text) == WithChunkOf(Written(cs), text)
            && Stripped(WithChunkOf(bytes, text).value[8..]) != Stripped(bytes[8..])
  {
    WritesTheSame(cs, extra, text);
    ReadAgain(cs, extra);
    StrippedToTheEnd(cs, extra);
    StrippedWritten(cs, text);
    Longer(EncodedAll(Others(cs)), extra);
  }

  lemma WritesTheSame(cs: seq<Chunk>, extra: seq<Byte>, text: seq<Byte>)
    requires Proper(cs) && HasHeader(cs) && cs[|cs| - 1].kind == IEND && Fits(TextChunk(text))
    ensures WithChunkOf(Written(cs) + extra, text) == WithChunkOf(Written(cs), text) == Some(Written(Rewritten(cs, text)))
    ensures Written(Rewritten(cs, text))[8..] == EncodedAll(Rewritten(cs, text))
  {
    ReadAgain(cs, extra);
    Cuts.CutApart(SIGNATURE, EncodedAll(Rewritten(cs, text)));
  }

  lemma Longer(s: seq<Byte>, extra: seq<Byte>)
    requires extra != []
    ensures s != s + extra
  {
    assert |s + extra| > |s|;
  }
}
