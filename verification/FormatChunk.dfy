/** The fmt chunk: what the writer puts in it and what the reader takes from it. */
module FormatChunk {
  import opened Bytes

  datatype Option<T> = None | Some(value: T)

  /** The sample formats of a WAVE file. */
  datatype SampleFormat = Int16 | Int24 | Int32 | Float32 | Float64

  /** What the reader knows of the format once the chunk is processed. */
  datatype Format = Format(rate: Word, channels: nat, sample: SampleFormat)

  const PCM: nat := 1
  const IEEE: nat := 3
  const EXTENSIBLE: nat := 0xfffe
  /** The length of a chunk with an extension. */
  const EXTENDED: nat := 40
  const TWO_16: nat := 0x1_0000

  function Width(s: SampleFormat): (n: nat)
    ensures 0 < n
  {
    match s case Int16 => 2 case Int24 => 3 case Int32 => 4 case Float32 => 4 case Float64 => 8
  }

  function Bits(s: SampleFormat): nat { 8 * Width(s) }

  predicate IsFloat(s: SampleFormat) { s.Float32? || s.Float64? }

  /** CreateWriteData(): tag, channels, rate, bytes a second, frame size, bits. */
  function FormatData(rate: Word, channels: nat, bytesPerSample: nat, bits: nat, isFloat: bool): (bs: seq<Byte>)
    ensures |bs| == 16
  {
    Le16(if isFloat then IEEE else PCM) + Le16(channels % TWO_16) + Le32(rate)
    + Le32(rate * channels * bytesPerSample % TWO_32) + Le16(channels * bytesPerSample % TWO_16) + Le16(bits % TWO_16)
  }

  // ---------------------------------------------------------------------------
  // Reading
  // ---------------------------------------------------------------------------

  function ByteAt(data: seq<Byte>, k: nat): Byte { if k < |data| then data[k] else 0 }

  /** A 16-bit field; bytes that the chunk lacks read as zero. */
  function Half(data: seq<Byte>, k: nat): (n: nat)
    ensures n < TWO_16
  {
    FromLe16([ByteAt(data, k), ByteAt(data, k + 1)])
  }

  function Whole(data: seq<Byte>, k: nat): Word {
    FromLe32([ByteAt(data, k), ByteAt(data, k + 1), ByteAt(data, k + 2), ByteAt(data, k + 3)])
  }

  /** The number of bits that count: an extension may state fewer than there is room for. */
  function ValidBits(data: seq<Byte>): nat {
    if Half(data, 0) == EXTENSIBLE && EXTENDED <= |data| && 22 <= Half(data, 16) && 0 < Half(data, 18)
    then Min(Half(data, 14), Half(data, 18)) else Half(data, 14)
  }

  /** ProcessChunkData(). */
  function Parse(data: seq<Byte>): (r: Option<Format>)
    ensures r.Some? ==> r.value.channels < TWO_16
  {
    var tag, bits := Half(data, 0), ValidBits(data);
    if tag != PCM && tag != IEEE && tag != EXTENSIBLE then None
    else
      var sample :=
        if tag == IEEE then if bits == 32 then Float32 else Float64
        else if bits <= 16 then Int16
        else if bits <= 24 then Int24
        else Int32;
      Some(Format(Whole(data, 4), Half(data, 2), sample))
  }

  // ---------------------------------------------------------------------------
  // Both
  // ---------------------------------------------------------------------------

  /** The fields where they stand, each least significant byte first. */
  predicate Fields(data: seq<Byte>, tag: nat, channels: nat, rate: nat, perSecond: nat, frame: nat, bits: nat) {
    && |data| == 16
    && LeValue(data[0..2]) == tag && LeValue(data[2..4]) == channels && LeValue(data[4..8]) == rate
    && LeValue(data[8..12]) == perSecond && LeValue(data[12..14]) == frame && LeValue(data[14..16]) == bits
  }

  lemma FieldsWritten(rate: Word, channels: nat, bytesPerSample: nat, bits: nat, isFloat: bool)
    ensures Fields(FormatData(rate, channels, bytesPerSample, bits, isFloat), if isFloat then 3 else 1,
                   channels % 65536, rate, rate * channels * bytesPerSample % 0x1_0000_0000,
                   channels * bytesPerSample % 65536, bits % 65536)
  {
    hide LeValue, Le16, Le32;
    var data := FormatData(rate, channels, bytesPerSample, bits, isFloat);
    var tag, perSecond, frame := if isFloat then IEEE else PCM, rate * channels * bytesPerSample % TWO_32, channels * bytesPerSample % TWO_16;
    assert data[0..2] == Le16(tag) && data[2..4] == Le16(channels % TWO_16) && data[4..8] == Le32(rate);
    assert data[8..12] == Le32(perSecond) && data[12..14] == Le16(frame) && data[14..16] == Le16(bits % TWO_16);
    HalfStored(tag);
    HalfStored(channels % TWO_16);
    WordStored(rate);
    WordStored(perSecond);
    HalfStored(frame);
    HalfStored(bits % TWO_16);
  }

  lemma FieldsRead(data: seq<Byte>, tag: nat, channels: nat, rate: nat, perSecond: nat, frame: nat, bits: nat)
    requires Fields(data, tag, channels, rate, perSecond, frame, bits)
    ensures Half(data, 0) == tag && Half(data, 2) == channels && Whole(data, 4) == rate && Half(data, 14) == bits
  {
    hide LeValue, FromLe16, FromLe32;
    LeValues(data[0..2]);
    LeValues(data[2..4]);
    LeValues(data[4..8]);
    LeValues(data[14..16]);
    assert [ByteAt(data, 0), ByteAt(data, 1)] == data[0..2];
    assert [ByteAt(data, 2), ByteAt(data, 3)] == data[2..4];
    assert [ByteAt(data, 4), ByteAt(data, 5), ByteAt(data, 6), ByteAt(data, 7)] == data[4..8];
    assert [ByteAt(data, 14), ByteAt(data, 15)] == data[14..16];
  }

  /** What is read of a chunk with these fields and no extension: any tag but three is refused. */
  lemma ParsedFields(data: seq<Byte>, tag: nat, channels: nat, rate: Word, perSecond: nat, frame: nat, bits: nat)
    requires Fields(data, tag, channels, rate, perSecond, frame, bits)
    ensures Parse(data).Some? <==> tag in {1, 3, 0xfffe}
    ensures tag == 1 || tag == 0xfffe ==>
              Parse(data) == Some(Format(rate, channels, if bits <= 16 then Int16 else if bits <= 24 then Int24 else Int32))
    ensures tag == 3 ==> Parse(data) == Some(Format(rate, channels, if bits == 32 then Float32 else Float64))
  {
    hide LeValue, Half, Whole;
    FieldsRead(data, tag, channels, rate, perSecond, frame, bits);
  }

  /** An extended chunk may make a sample narrower than its container, never wider. */
  lemma ParsedExtension(data: seq<Byte>)
    requires 40 <= |data| && LeValue(data[0..2]) == 0xfffe
    ensures var room, size, valid := LeValue(data[14..16]), LeValue(data[16..18]), LeValue(data[18..20]);
            var bits := if 22 <= size && 0 < valid && valid < room then valid else room;
            && Parse(data).Some? && Parse(data).value.channels == LeValue(data[2..4]) && Parse(data).value.rate == LeValue(data[4..8])
            && Parse(data).value.sample == if bits <= 16 then Int16 else if bits <= 24 then Int24 else Int32
  {
    hide LeValue, FromLe16, FromLe32;
    HalfRead(data, 0);
    HalfRead(data, 2);
    HalfRead(data, 14);
    HalfRead(data, 16);
    HalfRead(data, 18);
    LeValues(data[4..8]);
    assert [ByteAt(data, 4), ByteAt(data, 5), ByteAt(data, 6), ByteAt(data, 7)] == data[4..8];
  }

  lemma HalfRead(data: seq<Byte>, k: nat)
    requires k + 2 <= |data|
    ensures Half(data, k) == LeValue(data[k..k + 2])
  {
    hide LeValue, FromLe16;
    LeValues(data[k..k + 2]);
    assert [ByteAt(data, k), ByteAt(data, k + 1)] == data[k..k + 2];
  }

  /** The reader takes back what the writer put in: rate and sample format always, the number of
      channels if and only if it is below 65536. */
  lemma FormatRoundTrip(f: Format)
    ensures var data := FormatData(f.rate, f.channels, Width(f.sample), Bits(f.sample), IsFloat(f.sample));
            && Parse(data) == Some(f.(channels := f.channels % 65536))
            && (Parse(data) == Some(f) <==> f.channels < 65536)
  {
    hide FormatData, Fields, Parse;
    FieldsWritten(f.rate, f.channels, Width(f.sample), Bits(f.sample), IsFloat(f.sample));
    var data := FormatData(f.rate, f.channels, Width(f.sample), Bits(f.sample), IsFloat(f.sample));
    ParsedFields(data, if IsFloat(f.sample) then 3 else 1, f.channels % 65536, f.rate,
                 f.rate * f.channels * Width(f.sample) % 0x1_0000_0000, f.channels * Width(f.sample) % 65536, Bits(f.sample) % 65536);
  }

  /** Any format that Create is given makes a chunk that can be read; reading gives sample width and
      channels back if and only if the parameters fit together and there are not too many channels. */
  lemma FormatKept(rate: Word, channels: nat, bytesPerSample: nat, bits: nat, isFloat: bool)
    ensures var r := Parse(FormatData(rate, channels, bytesPerSample, bits, isFloat));
            && r.Some? && r.value.rate == rate
            && (r.value.channels == channels <==> channels < 65536)
            && (Width(r.value.sample) == bytesPerSample <==>
                  bytesPerSample == if isFloat then if bits % 65536 == 32 then 4 else 8
                                    else if bits % 65536 <= 16 then 2 else if bits % 65536 <= 24 then 3 else 4)
  {
    hide FormatData, Fields, Parse;
    FieldsWritten(rate, channels, bytesPerSample, bits, isFloat);
    ParsedFields(FormatData(rate, channels, bytesPerSample, bits, isFloat), if isFloat then 3 else 1, channels % 65536, rate,
                 rate * channels * bytesPerSample % 0x1_0000_0000, channels * bytesPerSample % 65536, bits % 65536);
  }
}
