/** Chunk identifiers: four characters read as one big-endian word. */
module ChunkIds {
  import opened Bytes

  const RIFF_ID: Word := 0x5249_4646
  const RF64_ID: Word := 0x5246_3634
  const WAVE_ID: Word := 0x5741_5645
  const DS64_ID: Word := 0x6473_3634
  const FMT_ID: Word := 0x666d_7420
  const DATA_ID: Word := 0x6461_7461
  const BEXT_ID: Word := 0x6265_7874
  const CHNA_ID: Word := 0x6368_6e61
  const AXML_ID: Word := 0x6178_6d6c
  const JUNK_ID: Word := 0x4a55_4e4b

  /** The four characters of an identifier. */
  function Name(id: Word): string {
    [(id / 0x100_0000) as char, (id / 0x1_0000 % 0x100) as char, (id / 0x100 % 0x100) as char, (id % 0x100) as char]
  }

  lemma Names()
    ensures Name(RIFF_ID) == "RIFF" && Name(RF64_ID) == "RF64" && Name(WAVE_ID) == "WAVE"
    ensures Name(DS64_ID) == "ds64" && Name(JUNK_ID) == "JUNK" && Name(FMT_ID) == "fmt " && Name(DATA_ID) == "data"
    ensures Name(BEXT_ID) == "bext" && Name(CHNA_ID) == "chna" && Name(AXML_ID) == "axml"
  {
  }

  /** What a bext chunk without data is given before it is written. */
  const BROADCAST_SIZE: nat := 602

  /** The identifiers whose chunks have a role of their own in the container. */
  predicate BuiltIn(id: Word) {
    || id == RIFF_ID || id == RF64_ID || id == WAVE_ID
    || id == DS64_ID || id == FMT_ID || id == DATA_ID
  }
}
