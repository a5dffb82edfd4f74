# A model of the audio container and the playlist player

This project models four connected parts of a broadcast audio library and proves what they promise.

* **The RIFF/RF64 container** (`EnhancedFile`, `ChunkIds`, `FormatChunk`, `Ds64`, `Ds64Chunk`, `RiffLayout`, `RiffWrite`, `RiffFile`, `RiffReader`, `RoundTrip`, `ItemOrder`, `Slots`, `ReadBack`, `FileHead`, `Session`, `Reopen`). A file is written in one pass: headers with a reserved JUNK chunk, then samples; closing rewrites every header in place and, when the file has grown too large, turns JUNK into ds64 and RIFF into RF64 (EBU Tech 3306). The reader walks the chunks and takes sizes that do not fit 32 bits from ds64. `RiffFile.RiffFile` and `RiffReader.Reader` follow the two sides step by step on a file of bytes; `RiffLayout` says which bytes a list of chunks is, `FileHead` and `ReadBack` what is in them at which offset, and `Session` and `Reopen` close the circle for every run: what was put into a file is found in it, and what was recorded is heard.
* **Sample transfer** (`Blocks`, `SoundFile`). Frames move between a file and a caller's buffer in blocks of bounded size, for a clamped range of channels, inside a clip.
* **The playlist player** (`Player`, `PlayerRun`, `PlayerFacts`, `PlayerSeek`, `PlayerControls`, `PlayerSound`, `PlayerFile`, `Playlist`). `Player` has the state and its steps, `Playlist.Playlist` the object whose methods are proved to take those steps, with the read loop and its in-place fades. `PlayerRun` shows that the loop ends, and `PlayerFacts` what a listener hears: one stream, however the reads are cut up, with silence around every deferred jump. `PlayerSeek` says when a deferred seek is performed, and what is heard of it and of a fade whose length is changed. `PlayerControls` says where each control takes the player, and `PlayerSound` what is heard, sample by sample.
* **The chna chunk** (`Chna`), which packs track records into fixed-width fields and counts distinct tracks.

Bytes and 32-bit words are bounded integers; 64-bit sizes are split into two words and joined again explicitly, and 16-bit counts wrap explicitly. Short reads of a file are nondeterministic. Samples of the player are reals and gains are exact fractions of the fade length.

Where the code does not do what its surroundings suggest, the exact condition is proved: `SoundFile.ReadIgnoresClipStart` (reads start at the file's first frame, not the clip's), `RiffLayout.RelayKeepsSamples`, `RiffLayout.ReplacedThenClosed` and `RiffFile.RiffFile.AddData` (what a second layout keeps; `Session.RewindAndAdd` is a run that loses its recording), `ReadBack.LengthRecovered` (the ds64 table is sized once, when the file is created; `Session.UnslottedRun` is a run that needs more), `PlayerFacts.StuckForEver` (looping over empty files never ends; `Playlist.StuckPlayer` gets there), `PlayerFacts.LengthUpdate` (summing lengths again is not always enough), `PlayerSeek.FadeLength` and `Playlist.ReadChangedFade` (a fade length changed during a fade), `PlayerSeek.SeekPerformed` (a deferred seek whose fade-down runs out of list).

`dafny verify dfyconfig.toml` checks the whole project. The table lists the results and the operations they rest on; setters, getters and auxiliary lemmas are specified where they stand.

## Model

| member | source | states |
|---|---|---|
| Session.Run | src/RIFFFile.cpp:159-524 | for any run of chunk additions and recordings after creation, and of data set on chna and axml before closing, closing leaves exactly the file described by the chunks added, in order, with the data they had last, and by exactly the frames recorded |
| Session.SetExtra | src/RIFFChunk.cpp:242-298 | data set on a chna or axml chunk after recording leaves the recording where it is; chna refuses data of another length and axml never shrinks; the file is then that of a run that had given the chunk its data from the start |
| Reopen.RunAndOpen | src/RIFFFile.cpp:36-399 | opening what such a run left succeeds on exactly the bytes written, which begin as `FileHead.Head` says; the list is the expected one if and only if every chunk too long for its 32-bit header found a ds64 entry, and then the format, the samples and every chunk with data are found by their identifiers: full length, header and bytes in the file with a zero byte after odd lengths, a copy of the data for fmt, bext, chna and axml and none for the others, ahead of the samples or after them as asked for; beyond the first three entries there is nothing else |
| Reopen.SmallRun | src/RIFFFile.cpp:316-379 | every run with distinct identifiers whose file is below 4 GiB is within the limits of the round trip |
| Reopen.EmptyRunReads | src/RIFFFile.cpp:159-222 | so is, in every format, the run that adds nothing |
| Reopen.Replay | src/RIFFFile.cpp:36-524 | a run is recorded, closed and opened, and its samples are read through the sample object that opening leaves, in the format that the file states: if the format is consistent, exactly the recorded frames come back, and the rate |
| Reopen.ReplayTracks | src/ADMRIFFFile.cpp:203-312 | tracks packed into chna records, put before closing into a chunk made for as many, are unpacked from the chunk that opening finds: the same tracks in order if and only if there are fewer than 65536, with numbers below 65535 and fitting strings |
| Reopen.FormatBack | src/RIFFChunks.cpp:431-511 | every field of the format of a run stands in the fmt entry of the opened file, least significant byte first; the reader takes rate, channels and sample width from it, and they are those of the run if and only if there are fewer than 65536 channels and the width is the one that the number of bits stands for |
| Session.ExtraAt | src/RIFFChunks.h:271-335 | in the list that Close finds, an extra chunk has the data it was given, bext 602 zeros if it has none, and goes after the samples exactly if it is chna or axml |
| Session.AddedBy | src/RIFFFile.cpp:486-514 | an added chunk is on the side it asked for, but after the samples once any frame has been recorded |
| Session.UnslottedRun | src/RIFFFile.cpp:204-204 | such a chunk can be missed: in every format, a run without extra chunks and with one late chunk too long for its header is in all limits and does not read back |
| Session.RewindAndAdd | src/RIFFFile.cpp:486-514 | a recording whose last byte is not zero is lost by moving the position to the start and adding a chunk with data ahead of the samples: the closed file does not have it where its headers say |
| Session.AddedAt | src/RIFFFile.cpp:496-514 | the chunks added in a run are in the closed list, unchanged and in order |
| Session.RunCloses | src/RIFFFile.cpp:316-379 | the limits that make the round trip apply, from the run alone: identifiers distinct and not zero, a ds64 chunk that is itself short, a total within a file offset; and exactly these |
| FormatChunk.FieldsWritten | src/RIFFChunks.cpp:487-511 | the fields of the fmt data, byte by byte: tag, channels, rate, bytes a second, frame size, bits, each cut to its width |
| FormatChunk.ParsedFields | src/RIFFChunks.cpp:431-480 | exactly the tags 1, 3 and 0xfffe are accepted, and what rate, channels and sample format the reader then takes |
| FormatChunk.ParsedExtension | src/RIFFChunks.cpp:444-450 | an extension may lower the number of bits that decides the sample format, and never raises it |
| FormatChunk.FormatRoundTrip | src/RIFFChunks.cpp:431-511 | for each of the five sample formats what is written is read back, the number of channels if and only if it is below 65536 |
| Session.EmptyRunOk | src/RIFFFile.cpp:159-222 | every valid format has a run, and without extra chunks the samples start at byte 80 |
| Session.Do | src/RIFFFile.cpp:486-524 | each operation keeps a running file: laid out, recording, ds64 untouched, list and sample bytes extended by exactly that operation |
| ReadBack.ClosedFileOpens | src/RIFFFile.cpp:36-127 | every closed file opens with exactly the expected list if and only if each oversized chunk got a table entry; RF64/RIFF and ds64/JUNK are chosen exactly by the total |
| ReadBack.LengthRecovered | src/RIFFChunks.cpp:356-387 | the length of an extra chunk comes back from an RF64 file if and only if it fits its header or the chunk is among the first that needed an entry |
| ReadBack.Rf64Chain | src/RIFFFile.cpp:48-66 | in an RF64 file the ds64 chunk replaces the limit of the loop and resolves the sizes after it: the loop returns all chunks if and only if all resolve |
| ReadBack.FinalLength | src/RIFFFile.cpp:357-379 | the file is 8 bytes longer than the total in its RIFF header, the total is even, and the identifiers of the first and third chunk follow from the total |
| ReadBack.FinalTable | src/RIFFFile.cpp:334-352 | after closing, ds64 holds the sizes of the oversized chunks as a bounded map, the data size, the sample count and, for RF64, the total |
| ReadBack.ChunkStands | src/RIFFChunk.cpp:174-209 | every chunk that has data, and data always, is found by its identifier, at a place in the list that only its side and its rank there decide, and the entry stands for its data |
| ReadBack.EntriesInOrder | src/RIFFFile.cpp:251-284 | chunks come before or after the samples as their class says, and those of one side in the order of the list |
| ReadBack.EntryFrom | src/RIFFFile.cpp:36-66 | every entry after the first three is that of a chunk with data, or of data |
| FileHead.ClosedHead | src/RIFFFile.cpp:316-379 | the first bytes of every closed file: RIFF, or RF64 exactly when the rest has 2^32-1 bytes or more, its size, WAVE, and a JUNK or ds64 chunk with the true file size (RF64), the data size, the number of frames and the number of table entries, at their offsets and least significant byte first |
| FileHead.ClosedTable | src/RIFFChunks.cpp:299-354 | a chunk too long for its header, while there are entries, stands in the table on file, identifier most significant byte first and 64-bit length |
| ReadBack.SamplesStand | src/RIFFFile.cpp:251-269 | the data entry found on opening is the sample region of the writer |
| Slots.FirstComeFirstServed | src/RIFFChunks.cpp:299-354 | with distinct identifiers the oversized chunks get the table entries in list order, and an entry holds the length of its chunk |
| Slots.AllNotedHolds | src/RIFFFile.cpp:334-352 | the accounting loop leaves a table that is the bounded map of the oversized chunks seen so far |
| Slots.TableFill | src/RIFFFile.cpp:204-204 | the table holds as many sizes as there are oversized chunks, up to the entries reserved at creation |
| RoundTrip.FileIsItems | src/RIFFFile.cpp:247-284 | the bytes of a closed file are the RIFF and WAVE headers and then the written chunks: early ones, data, late ones |
| RoundTrip.ItemRead | src/RIFFChunk.cpp:46-119 | a chunk framed by header, payload and padding is read back whole where it stands |
| RoundTrip.ChainReads | src/RIFFFile.cpp:48-66 | a run of readable chunks is read back chunk by chunk |
| RoundTrip.ChainReadsOnly | src/RIFFFile.cpp:48-66 | the converse: a run that is read back is one whose chunks are all readable |
| RiffReader.Reader.Open | src/RIFFFile.cpp:98-127 | opening accepts exactly the files that start with a RIFF or RF64 chunk, keeps the list that the chain of chunks defines, maps each identifier to its last chunk, and keeps nothing on failure |
| RiffReader.Reader.ReadChunks | src/RIFFFile.cpp:36-96 | the loop terminates on every byte string and appends exactly the chain of chunks from the current position |
| RiffReader.ReadChunk | src/RIFFChunk.cpp:391-444 | one chunk is created from the file, or none, as its identifier, size and data allow, and the position moves by its extent |
| RiffReader.CutOff | src/RIFFChunk.cpp:46-119 | a chunk that is stepped over is listed even if the file ends before it does; one that is loaded is not, and nothing follows either |
| RiffReader.Reader.Link | src/RIFFFile.cpp:68-84 | the sample object after opening is linked to the last data chunk and has the format of the last format chunk |
| RiffReader.OpenTiles | src/RIFFFile.cpp:98-127 | the list of every file that opens tiles it from its first byte, and positions strictly increase |
| RiffFile.RiffFile.Create | src/RIFFFile.cpp:159-222 | creation lays out the headers with as many ds64 entries as extra chunks, and fixes the fmt data, field by field; the samples start right after the headers and the file is ready to record; a refusal leaves an open file alone and clears a closed one |
| RiffFile.RiffFile.AddData | src/RIFFFile.cpp:486-524 | a chunk with data is appended; it goes ahead of the samples only while the position is zero, and then the headers are laid out again; the file stays laid out if and only if the chunk goes after the samples, nothing is recorded, or the chunk is empty and no padding is written |
| RiffFile.RiffFile.SetChunkData | src/RIFFChunk.cpp:215-234 | replacing the data of a chunk keeps the file laid out if and only if the chunk goes after the samples or keeps its length on file |
| RiffFile.RiffFile.AddChunks | src/RIFFFile.cpp:176-182 | the five chunks of the container, then the extra ones, are in the list in order and the map finds the container ones |
| RiffFile.RiffFile.AddChunk | src/RIFFFile.cpp:409-458 | a chunk is added by identifier exactly when the file is being written and the identifier is new or may repeat |
| RiffFile.RiffFile.WriteChunks | src/RIFFFile.cpp:230-291 | the headers are overwritten in place around the samples, which are stepped over; the sample object is told where they start |
| RiffFile.RiffFile.WriteSamples | src/SoundFileAttributes.cpp:186-265 | samples are appended at the end: bytes, frames, counts and layout all grow by exactly the frames given |
| RiffFile.RiffFile.Account | src/RIFFFile.cpp:316-356 | the accounting loop gives the total of the lengths on file and records in ds64 the sizes that need it |
| RiffFile.RiffFile.SetSizes | src/RIFFFile.cpp:316-376 | the list and the ds64 words get their final values, and switch to RF64 exactly when the total needs it |
| RiffFile.RiffFile.Close | src/RIFFFile.cpp:301-399 | closing writes the final headers over the file unless aborted, changes no sample byte, and lets go of file and chunks |
| RiffWrite.WriteChunk | src/RIFFChunk.cpp:174-209 | header, data and padding of a chunk are emitted as described, nothing for a chunk that is skipped |
| RiffWrite.WriteEarly | src/RIFFFile.cpp:251-262 | the first pass emits the chunks that go ahead of the samples, in list order |
| RiffWrite.WriteLate | src/RIFFFile.cpp:271-284 | the last pass emits the chunks that go after the samples, in list order |
| RiffWrite.WriteData | src/RIFFChunks.cpp:818-828 | the data header is written, the samples behind it are stepped over and padded, and the sample object is linked to them |
| RiffWrite.WritePasses | src/RIFFFile.cpp:251-284 | the passes together overwrite the file as one layout |
| RiffLayout.FileLength | src/RIFFFile.cpp:316-356 | the file is exactly 8 bytes longer than the sum of lengths on file, the sum is even, and one oversized chunk makes it oversized |
| RiffLayout.PassesAddUp | src/RIFFFile.cpp:251-284 | writing before, data and after in three passes emits as many bytes as the accounting sums in list order |
| RiffLayout.SamePre | src/RIFFFile.cpp:251-262 | two versions of a list whose early chunks take the same room put the samples at the same place |
| RiffLayout.FinalOffset | src/RIFFFile.cpp:357-379 | closing (RF64, ds64 for JUNK, RIFF length) does not move the samples |
| RiffLayout.AddedOffset | src/RIFFFile.cpp:486-524 | an added chunk moves the start of the samples by its length on file exactly when it goes ahead of them |
| RiffLayout.LaidInPlace | src/RIFFFile.cpp:230-291 | a layout over a file whose samples are already in place gives exactly the described file with the same samples |
| RiffLayout.RelayKeepsSamples | src/RIFFFile.cpp:230-291 | a layout over a file with samples behind a head of any bytes keeps every recording, while writing as on closing, if and only if there is none or the samples are to start where they do |
| RiffLayout.ReplacedThenClosed | src/RIFFFile.cpp:301-382 | after data of a chunk was replaced, closing keeps every recording if and only if there is none, the chunk goes after the samples, or its length on file is as before |
| Ds64.SetSizeStores | src/RIFFChunks.cpp:299-354 | storing a size has the effect and the answer of a bounded map with two places of its own for RIFF and data |
| Ds64.SetAllStoresAll | src/RIFFChunks.cpp:299-387 | over every sequence of calls the answers are those of that map, and so is every lookup afterwards |
| Ds64.ResizeKeepsTable | src/RIFFChunks.cpp:266-297 | changing the number of entries keeps the map if and only if it still fits |
| Ds64.AbsorbEmit | src/RIFFChunks.cpp:98-133 | the ds64 data read back from its bytes is the data written |
| Ds64.SwapUndone | src/RIFFChunks.cpp:98-133 | swapping for writing and swapping back is the identity on every content |
| Ds64.SwappedBytes | src/RIFFChunk.cpp:307-321 | between the swaps a big-endian memory holds the bytes of the file format |
| Ds64Chunk.Chunk.SetTableCount | src/RIFFChunks.cpp:266-297 | reallocation keeps what fits and clears the rest; without data only the count is noted |
| Ds64Chunk.Chunk.FindPlace | src/RIFFChunks.cpp:316-342 | the search finds the entry of the identifier, or else the first unused one |
| Ds64Chunk.Chunk.SetChunkSize | src/RIFFChunks.cpp:299-354 | the in-place search and store is the table operation |
| Ds64Chunk.Chunk.GetChunkSize | src/RIFFChunks.cpp:356-387 | the in-place lookup is the table lookup |
| Ds64Chunk.Chunk.ByteSwapData | src/RIFFChunks.cpp:98-133 | the in-place swap loops, bounded by the count in native order, swap every numeric word of the header and the table |
| SoundFile.SoundFileSamples.SetClip | src/SoundFileAttributes.cpp:89-99 | the clip is clamped so that no later subtraction wraps, and the position into the clip |
| SoundFile.SoundFileSamples.SetFile | src/SoundFileAttributes.cpp:76-87 | the same after linking to a file |
| SoundFile.SoundFileSamples.ReadSamples | src/SoundFileAttributes.cpp:101-184 | for every buffer size and every pattern of short reads: exactly the frames that the clip and the file still have, and position and error flag to match; sample by sample, the channels asked for arrive where they were asked for and nothing else in the buffer changes |
| SoundFile.ChannelsMost | src/SoundFileAttributes.cpp:115-119 | as many channels are moved as the request, the clip and the caller's frames allow, and no fewer |
| SoundFile.TakenAt | src/SoundFileAttributes.cpp:186-265 | a written frame takes its channels from the first one that was named |
| SoundFile.SoundFileSamples.ReadBlocks | src/SoundFileAttributes.cpp:119-163 | the block loop delivers the stored frames from the position on, as one transfer would |
| SoundFile.SoundFileSamples.WriteSamples | src/SoundFileAttributes.cpp:186-265 | the frames are written at the file position and position, totals and clip follow; a write without channels moves only the position, which stays in the clip if and only if it ends there |
| SoundFile.SoundFileSamples.WriteBlocks | src/SoundFileAttributes.cpp:203-250 | the block loop writes and accounts as one write would |
| SoundFile.DecodeAppend | src/SoundFileAttributes.cpp:227-238 | frames appended to a file are decoded after those already there |
| Playlist.Playlist.AddFile | src/Playlist.cpp:44-54 | a file is appended and is heard after the others, the length grows by its own, and the player stands at the first frame of the list with a fade-in ahead |
| Playlist.Playlist.Reset | src/Playlist.cpp:95-108 | everything back to the first file, fade-in armed, requests cancelled |
| Playlist.Playlist.Next | src/Playlist.cpp:114-137 | the step to the next file in every looping mode |
| Playlist.Playlist.Walk | src/Playlist.cpp:277-293 | the two loops end at the file that holds the position, wherever they start |
| Playlist.Playlist.SetPlaybackPositionEx | src/Playlist.cpp:267-301 | the jump, from any state: the reported position is the one asked for, or the end of the list, or its last frame when it loops, and it succeeds exactly if that is a frame |
| Playlist.Playlist.SetPlaybackPosition | src/Playlist.cpp:219-261 | when forced or paused the same target is reached at once, else a fade-down and a pending request |
| Playlist.Playlist.SetPlaybackIndex | src/Playlist.cpp:337-377 | a request for a file goes to its first frame, or as far into it as the current file is played, limited to the list, at once or deferred as a seek there; a held player is released |
| Playlist.Playlist.FadeDown | src/Playlist.cpp:458-463 | the in-place scaling loop applies the falling gains and counts down |
| Playlist.Playlist.FadeUp | src/Playlist.cpp:497-502 | the in-place scaling loop applies the rising gains and counts down |
| Playlist.Playlist.Step | src/Playlist.cpp:433-531 | the body of the read loop is one pass of the player, in every branch |
| Playlist.Playlist.ReadSamples | src/Playlist.cpp:425-537 | the read loop terminates; the frames it leaves in the buffer, their number and the final state are those of the player, frames with gain zero are zeros, and the rest of the buffer is untouched |
| PlayerControls.JumpLands | src/Playlist.cpp:267-301 | where a seek goes, in three cases, when it succeeds, the frame that then stands at the position, and that only the file reached is moved |
| PlayerControls.JumpFile | src/Playlist.cpp:277-297 | a seek to a position inside a file reaches that file at that place |
| PlayerControls.ForcedSeek | src/Playlist.cpp:236-246 | a forced seek is performed at once, ends fade-down and pending seek, and arms a fade-in if it could |
| PlayerControls.IndexLands | src/Playlist.cpp:337-377 | where a request for a file takes the player |
| PlayerControls.AddedLast | src/Playlist.cpp:44-54 | an added file is heard after those added before, and the player starts over |
| PlayerControls.ResetStarts | src/Playlist.cpp:95-108 | after a reset the player stands at the first frame of the list with a fade-in ahead and no request left |
| PlayerControls.AheadOfStart | src/Playlist.cpp:95-137 | what a player started over has ahead is the joined files from the first frame, or the first file |
| PlayerSound.PlaySounds | src/Playlist.cpp:425-537 | every frame of every read is silence, or a frame of a file put into that of the buffer with each sample times the gain; at gain zero it is silent |
| PlayerSound.StreamSounds | src/Playlist.cpp:486-512 | the samples of a steady player: the frames ahead, rising in equal steps during a fade-in |
| PlayerSound.SeekSounds | src/Playlist.cpp:219-261 | the samples around a deferred seek: the frames ahead falling in equal steps to silence, then those from the target on, rising in equal steps from silence |
| PlayerSound.AheadOfTarget | src/Playlist.cpp:267-301 | what lies ahead of the target is the joined list from the position asked for |
| PlayerSound.PauseSounds | src/Playlist.cpp:400-413 | pausing fades down in equal steps and then stays silent at the place reached, with a pending seek waiting; ending it arms a fade-in |
| PlayerSound.SilenceHeard | src/Playlist.cpp:437-477 | a player that is held, or paused with its fade over, fills the buffer with zeros and stays where it is |
| PlayerSound.WithinFile | src/Playlist.cpp:433-512 | inside a file that is error-free its frames are heard in turn, whoever started it, and being told to go on is used up once at the start of a file |
| PlayerSound.OneFileStarted | src/Playlist.cpp:437-447 | without autoplay, going on plays one file to its end in frames at their places; then the player waits in silence at the start of the next, or is at the end |
| PlayerSound.NextAfterError | src/Playlist.cpp:507-524 | where a file cannot be read any further the next one is heard, and if that cannot be read at all the read breaks off |
| PlayerSound.JumpsAreZeros | src/Playlist.cpp:425-537 | in every run of operations the frames before and after each deferred jump are zeros |
| SoundFile.ReadIgnoresClipStart | src/SoundFileAttributes.cpp:119-163 | in every format and for every clip inside the file, a read leaves in the buffer what the clip has there, whatever the file holds, if and only if the clip starts at frame zero or nothing is moved |
| PlayerFile.ReadTrack | src/Playlist.cpp:455-455 | a sound file is read by the player as the track it shows, by the same relation of buffer, count, position and error flag that the playlist object is proved to follow |
| PlayerFile.ReadAlike | src/Playlist.cpp:455-455 | the relation determines the outcome: a sound file and a track that shows the same are read alike |
| Playlist.Playlist.ReadFile | src/Playlist.cpp:455-455 | the read of a track into part of the buffer follows that relation |
| Playlist.Playlist.SetFadeSamples | src/Playlist.h:212-212 | after a change of the fade length every gain of the fade under way lies in [0,1) if and only if the fade has no more frames to go than the new length has |
| Playlist.ReadChangedFade | src/Playlist.cpp:448-503 | the frames that a read leaves after the fade length changed during a fade-down: the frames ahead with the gains of the new length, in [0,1) if and only if that fitted |
| Playlist.StuckPlayer | src/Playlist.cpp:516-524 | one empty file and looping are enough to reach a state in which the read loop never ends |
| PlayerRun.Play | src/Playlist.cpp:431-532 | the invariant is kept, and fewer frames than asked for are delivered only at the end of the list or after two errors in a row |
| PlayerRun.PassKeeps | src/Playlist.cpp:433-531 | every pass keeps the start offset equal to the lengths before the current file, the files, the settings and the fade bounds |
| PlayerRun.EmptyPass | src/Playlist.cpp:513-524 | a pass without a frame, a jump or a break lowers a rank, in every looping mode and with read errors |
| PlayerRun.StaysLive | src/Playlist.cpp:431-532 | a loop that can end stays one that can end |
| PlayerRun.JumpKeeps | src/Playlist.cpp:267-301 | a jump keeps the invariant, it succeeds if and only if the limited position is below the total, and then stands at a frame that is there |
| PlayerRun.LocateUnique | src/Playlist.cpp:284-293 | a position lies in exactly one file, also with empty files in the list, and in none exactly when it is the total or more |
| PlayerFacts.StuckForEver | src/Playlist.cpp:431-532 | from the states that the termination proof excludes for error-free files, no number of passes ends the loop or delivers a frame |
| PlayerFacts.PlaySplit | src/Playlist.cpp:425-537 | reading in two parts gives the frames, the gains and the final state of reading once, from every state with error-free files, through fades, pauses, holds and jumps |
| PlayerFacts.ReadsAreOne | src/Playlist.cpp:425-537 | however a buffer is cut into any number of reads, they deliver what one read would and end in the same state |
| PlayerFacts.ReadsAreStream | src/Playlist.cpp:425-537 | over any run of reads a steady player is one long stream |
| PlayerFacts.PassLong | src/Playlist.cpp:433-531 | a pass that fills its buffer is the first part of a longer one |
| PlayerFacts.PlaysStream | src/Playlist.cpp:425-537 | a steady player delivers one stream: frame k is the frame k ahead in the joined list, cyclic over the list or over the file when looping, with the gain of the fade-in; only the end of a list that does not loop cuts it short |
| PlayerFacts.GainRange | src/Playlist.cpp:458-502 | gains of a fade lie in [0,1), the first of a full fade-in and the last of a fade-down are zero |
| PlayerFacts.PlayQuiet | src/Playlist.cpp:425-537 | within a read each deferred jump has gain zero on both sides |
| PlayerFacts.ApplyQuiet | src/Playlist.cpp:219-261 | every operation keeps the player healthy and a pending jump silent |
| PlayerFacts.JumpsAreSilent | src/Playlist.cpp:425-537 | in every run of operations, files added and the list cleared among them, the frame before and the frame after each deferred jump have gain zero |
| PlayerSeek.SeekPerformed | src/Playlist.cpp:219-261 | a deferred seek is performed by a read if and only if the read is longer than the fade and the fade-down fits before the end of the list, or the list or file loops; then the whole fade is heard and after it the stream from the target, which is the position asked for wherever that is in the list; otherwise at most the fade is heard |
| PlayerSeek.SeekPerformedByReads | src/Playlist.cpp:425-537 | the same condition for any run of reads |
| PlayerSeek.SeekLostInFade | src/Playlist.cpp:448-463 | a seek away from the end of the list that no read performs |
| PlayerSeek.FadesOut | src/Playlist.cpp:448-463 | during a fade-down the frames ahead are heard with the falling gains, nothing jumps, and only the end of a list that does not loop cuts it short |
| PlayerSeek.FadeLength | src/Playlist.h:212-212 | under another fade length the gains of a fade lie in [0,1) if and only if it has no more frames to go than that |
| PlayerSeek.ChangedFadeIn | src/Playlist.cpp:486-503 | what is heard of a fade-in after its length changed, and when its gains are proper |
| PlayerFacts.LengthUpdate | src/Playlist.cpp:60-69 | after a file changed its length, summing again restores the invariant if and only if the file is not before the current one or kept its length |
| Chna.FieldText | src/XMLADMData.cpp:419-419 | a fixed-width field gives back its string, cut at the first zero byte and at the width; all of it if and only if it fits without a zero byte |
| Chna.CollectedPacked | src/XMLADMData.cpp:119-158 | a list of records is decoded as the list of tracks if and only if each one is |
| Chna.RoundTrip | src/XMLADMData.cpp:109-163 | decoding what was encoded gives the same tracks in order if and only if there are at most 65535, with numbers below 65535 and fitting strings |
| Chna.Counts | src/XMLADMData.cpp:390-436 | the header states the number of records and of distinct tracks exactly when these are below 65536, and the length leaves room for exactly the records |
| Chna.OnFile | src/XMLADMData.cpp:377-443 | the bytes of the chunk: two counts, then for each track a record of 40 bytes with its number and the three texts at their offsets, padded with zeros |
| Chna.CutShort | src/XMLADMData.cpp:109-163 | a chunk that is cut short gives the tracks whose records are whole |
| Chna.Mark | src/XMLADMData.cpp:405-415 | the growing bit vector marks exactly the numbers seen, and tells a new one |
| Chna.Memory.GetChna | src/XMLADMData.cpp:377-443 | the loop fills every record, counts the records, and counts the distinct tracks as the size of their set |
| Chna.Memory.ByteSwapData | src/RIFFChunks.cpp:728-756 | the in-place swap, bounded by the count in native order, swaps the counts and every record number it covers |
| Chna.Memory.WriteChunkData | src/RIFFChunk.cpp:307-321 | writing leaves the memory as it was and emits the swapped bytes |
| Chna.SwappedImage | src/RIFFChunks.cpp:728-756 | a big-endian host writes the bytes a little-endian one does |
| Chna.SetChna | src/XMLADMData.cpp:109-163 | the loop decodes as many records as both the count and the length allow, skipping unused ones |

## Left out

- EnhancedFile: real input and output, background writing, locks, logging and reference counts; a file is a byte string and a position, and each call is one step.
- RiffFile.RiffFile.Valid: chunk objects other than ds64 and data are values in the list, so several names for one chunk object are not captured.
- RiffFile.RiffFile.AddChunk: a chunk added by identifier after creation, and given data there, is modelled by `SetChunkData` on the list only; the layout it needs is not redone by the source either.
- RiffFile.RiffFile.AddData: the identifiers of the container's own chunks (RIFF, RF64, WAVE, ds64, fmt, data) are excluded; on a file that is not open for writing the source only appends to the list, which is not modelled.
- RiffFile.RiffFile.SetChunkData: a bext chunk whose data is replaced by none, which the source fills again while it writes, is excluded; a bext chunk that never had data is not.
- RiffFile.RiffFile.Create: starts from an empty chunk list; a failing file system, and hooks that derived classes put into CreateExtraChunks beyond adding chunks with data.
- FormatChunk.Parse: where the source reads past a short format or ds64 payload, missing bytes are zero here. The widths of the sample formats come from a library that is not part of this model; they are those that the formats are named after.
- RiffReader.Reader.Link: done once after the chunks are read, where the source does it chunk by chunk to the same end. A format chunk with zero channels, for which the source divides by zero, is excluded; the hooks ProcessChunk and PostReadChunks of derived classes are not modelled.
- Session.SetExtra: what ADMRIFFFile generates for chna and axml is a parameter.
- RiffReader.ChunkAt: a declared end beyond 64 bits does not wrap; one at or beyond 2^63 fails as the seek does.
- RiffReader.Reader: chunk classes are those that the library registers itself.
- SoundFile.SoundFileSamples.WriteSamples: some but not all channels of the file are not modelled; the destination stride the source passes there (src/SoundFileAttributes.cpp:222-225) is that of the channels written, and TransferSamples is not part of this model. Failed writes are not modelled.
- SoundFile.SoundFileSamples.ReadSamples: conversion between sample formats is a copy; the buffer is an array of frames, so the interleaving of the caller's buffer is not captured.
- Player.Track: files in a list are values, so one file object added twice is not captured; a file that cannot be read to its end stands for read errors, which therefore persist until a seek; sample values are reals.
- Playlist.Playlist.ReadSamples: lists that mix empty files with files that have read errors are left out of the termination proof. Its `channel` and `channels` are where frames go and how wide they are, as the code uses them, not channels of the file as its comment says. With a fade length set to zero during a fade the source divides by zero in floating point; such states are excluded.
- PlayerFacts.JumpsAreSilent: for jumps deferred by a fade; forced ones, and those made while paused, are immediate by design. The files have frames and no errors, and the fade length stays as it is and is not zero.
- PlayerFacts.PlaysStream: with autoplay on, no pause or jump under way and without read errors; fade-downs and jumps are the matter of PlayerSeek.FadesOut and PlayerSeek.SeekPerformed, playing without autoplay that of PlayerSound.OneFileStarted.
- PlayerSeek.SeekPerformed: what follows the jump is stated with autoplay on; without it a file is held at its start.
- Chna.Memory.GetChna: the variant with a fixed number of records, switched off in the source; track numbers of 2^32-1, for which the bit vector would wrap.
- Chna.SetChna: chunks shorter than their header; what the audio model does with a repeated identifier, and the final sorting of the tracks.
- bext fields and accessors, position times, and the getters of the playlist that return file objects: field copies.
- TinyXML and axml handling, ADMRIFFFile, ADMAudioFileSamples and SoundObjectFile: they rest on libraries that are not part of this model.
