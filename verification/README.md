# A verified model of the hard parts of QEMU 0.12.3

This project models, in Dafny, the parts of QEMU whose correctness is not visible from reading one
function, and proves what they are for. Paths below are those of the repository.

- **Live block migration** (`qemu/block-migration.c`). `MigrationModel` is the protocol: bulk reads in
  flight, the completion queue, the dirty map raced by guest writes, the final pass, and a receiver
  that replays what was sent. A sector of a buffer may be read at any moment between submission and
  completion. `MigrationProof` proves that every step keeps the invariant, `MigrationPass` that the
  final pass then makes the disks equal, `MigrationSure` that the conditions for this are exact, and
  `MigrationLate` what becomes of asynchronous guest writes that land after their mark was reset.
  `MigrationLimits` shows where the code falls short of its intent. `Migration` is the sender as a
  class; every method is shown to take a run of the protocol's steps. `BlockStream` is the byte
  stream, and `MigrationEndToEnd` goes from the sender's disks through the bytes to the receiver's.
  `DirtyBitmap` is the bitmap of the block layer as a set of chunks, over the words of `WordBits`.
- **AES** (`qemu/aes.c`). `IteratedCipher` and `Rijndael` prove that decryption by the "equivalent
  inverse cipher" (section 5.3.5 of FIPS 197) undoes encryption, over an arbitrary byte type that
  obeys a few laws; `WordCipher` and `AesTables` carry this to 32-bit words and lookup tables; `Aes`
  and `AesKeys` are the code over arrays; `Cbc` and `AesCbc` are chaining (section 6.2 of NIST SP
  800-38A). The tables are those of the comment at `qemu/aes.c:46-58`, over any substitution with an
  inverse.
- **DES** (`qemu/d3des.c`). `Feistel`, `Des`, `DesKeys`: the two schedules undo each other for every
  key and block, whatever the SP tables hold.
- **CRIS opcode lookup** (`qemu/cris-dis.c`). `Bits`, `CrisOpcodes`, `CrisMemo`: memo tables whose
  entries serve whole classes of prefixes, for any opcode table.
- **Block layer**. `IoVectors`, `Multiwrite`, `MultiwriteCompletion`: merging of writes and
  exactly-once completion. `ByteAccess`: byte access over sectors. `Commit`: committing an overlay.
  `Dma`: resumable scatter-gather transfers.
- **Queues and schedulers**. `BottomHalves` (`qemu/async.c`), `BufferedFile`
  (`qemu/buffered_file.c`), `ConsoleRings` (`qemu/console.c`), and `Calendar` for `mktimegm`.

## How the code's surroundings are modelled

Rate limits, driver errors, mapping failures, and what callbacks do are nondeterministic choices, so
every statement about a method holds for all of them. Where a loop would go on for ever if its
surroundings kept failing, a field (`faults`, `stalls`, `failures`, `budget`) holds an arbitrary
number of failures still to come, so every terminating run is covered; `quota` is how many blocks a
file takes before its rate limit. Rows of structures that the
code links in lists are fields of type `seq`.

## Where the code is narrower than its intent

Each of these is a precondition or an exact condition in the model, not something modelled away.

- Migration moves whole chunks of 2048 sectors. What lies behind the last whole chunk of a disk is
  never transferred, so such a disk is delivered exactly if its end was there already
  (`MigrationPass.Converges`); and if the guest writes there after the bulk read, the final pass
  fails (`MigrationPass.PassPossible`, `MigrationLimits.TailRewritten`).
- `is_stage2_completed` looks at `submitted` and not at `blk_list`, and `blk_mig_cleanup` drops the
  list. Over all runs, the sender can be sure of the receiver exactly if every unsent chunk has been
  overtaken by a guest write, in particular if the list is drained; with a shared base, also if the
  chunk lay wholly in it and is unchanged (`MigrationSure.SureIffOvertaken`, `SureIffHarmless`).
  `MigrationLimits.LostBlock` is a run that loses a block without any error.
- `bdrv_aio_writev` marks when a write is submitted, and its data may reach the disk after a bulk read
  has reset the mark; `MigrationLimits.LostWrite` is a run that loses a write in this way without any
  error. A landing is harmless exactly if it changes no whole chunk that was read and is unmarked
  (`MigrationLate.LandExact`, `LandingDecides`), and convergence takes all landings to be so; the model
  also lets writes be pending that were submitted before there were marks. Bulk reads that waited for
  the pending writes to their chunk would ensure it (`MigrationLate.CarefulIsTimely`).
- `blk_mig_cleanup` empties the device list before it calls `set_dirty_tracking(0)`, which then does
  nothing; the model lets a migration start with marks left over, and convergence does not mind.
- With no disk to migrate `blk_mig_save_bulked_block` would divide by a total of zero, so
  `Migration.BlkMigState.BlockSaveLive` takes at least one device when storage migration is enabled.
- The header word of the stream carries a sector number exactly if it is below 2^54
  (`BlockStream.HeaderRoundTrip`).
- `set_dirty_bitmap` shifts the int 1. The bitmap is modelled with 32-bit words; with 64-bit words the
  shift gives the mask of one bit exactly for bits below 31 (`WordBits.WideWords`), and a word serves
  as a set of n bits exactly up to n = 31 (`WordBits.WideWordsAsSets`).
- The dirty bitmap is allocated in bytes and accessed in words. All words are inside exactly if the
  number of bytes is a multiple of a word's (`DirtyBitmap.InsideIffWholeWords`); the model keeps the
  word that the allocation ends in apart, and says of every access whether it stays inside.
- `multiwrite_req_compare` returns the difference of two 64-bit sectors as an int. Merging takes the
  distance of any two requests modulo 2^32 to be positive and below 2^31, which is exactly when the
  comparison is right (`Multiwrite.CompareIffNear`); otherwise the earlier request can be lost
  (`Multiwrite.FarRequestsAreLost`).
- `multiwrite_merge` adds up `nb_sectors`, which fits the merged vector exactly if the two requests
  abut (`Multiwrite.SizeIffAbutting`), and drops the end of a request that contains the next one
  (`Multiwrite.OverlapExact`).
- The memo tables of the CRIS disassembler do not know the family they were filled for. They serve
  another exactly if the two agree wherever the first finds a row (`CrisMemo.CarryOverIffAgree`), and
  two rows of the opcode table show that they do not (`CrisMemo.FamiliesDoNotMix`). The two families
  before V32 agree if no row has a "!" (`CrisMemo.OldFamiliesShare`).
- `dma_bdrv_cb` asks for `iov.size / 512` sectors. When a mapping fails inside a sector, the rest of
  the batch is not moved and no error is reported; all is moved exactly if every batch has whole
  sectors (`Dma.AllMovedIffWhole`, `Dma.NothingMoved`).
- `async_context_pop` polls until a poll has run no half that was not idle. If the callbacks of idle
  halves schedule others in that last poll, they are left behind (`BottomHalves.IdleLeavesWork`).
  Exactly if the first due half is not idle, a poll that returns 0 is sure to leave nothing
  (`BottomHalves.SureIffNotIdleFirst`); that other due halves are idle does no harm. A caller of pop is
  safe if nothing is scheduled as idle before and during it (`BottomHalves.PopLeavesNothing`).
- `mktimegm` multiplies ints: with 32 bits the product fits exactly from 1901-12-14 to 2038-01-19
  (`Calendar.FitsUntil2038`).
- The byte functions read and write whole sectors, so on a device whose length is not a multiple of a
  sector they fail on its last bytes; `ByteAccess.BlockDevice.Pread` and `Pwrite` say exactly when.

## Model

| member | source | states |
|---|---|---|
| `MigrationProof.TouchedRange` | `qemu/block.c:648-651` | a write of n > 0 sectors marks exactly the chunks that it overlaps |
| `MigrationProof.GuestWriteKeeps` | `qemu/block.c:681-685` | a synchronous guest write, which marks and changes the disk in one call, keeps the invariant at any moment: every whole chunk below cur_sector is marked, on its way, or at the receiver |
| `MigrationProof.MarkKeeps` | `qemu/block.c:1576-1581` | so does submitting an asynchronous write, which only marks |
| `MigrationProof.LandKeeps` | `qemu/block.c:1580-1581` | and any part of its data reaching the disk at any later moment, if no chunk that was read and is unmarked is changed |
| `MigrationProof.SubmitKeeps` | `qemu/block-migration.c:149-202` | an asynchronous bulk read, with its skip over unallocated sectors and its reset of the mark, keeps the invariant |
| `MigrationProof.SyncBulkKeeps` | `qemu/block-migration.c:189-200` | so does a synchronous one, which sends at once |
| `MigrationProof.SkippedIsShared` | `qemu/block-migration.c:149-155` | with a shared base, chunks skipped over are at the receiver already |
| `MigrationProof.SkipToEndKeeps` | `qemu/block-migration.c:157-160` | finishing a device by skipping to its end keeps the invariant |
| `MigrationProof.SampleKeeps` | `qemu/block-migration.c:183-188` | a buffer in flight may pick up any sector at any time before completion |
| `MigrationProof.CompleteKeeps` | `qemu/block-migration.c:127-138` | reads may complete in any order and with any result |
| `MigrationProof.FlushHeadKeeps` | `qemu/block-migration.c:339-356` | sending the head of the queue keeps the invariant |
| `MigrationProof.StepKeeps` | `qemu/block-migration.c:127-469` | every step outside the final pass keeps the invariant, landings of asynchronous writes if they are in time |
| `MigrationProof.LiveRunKeeps` | `qemu/block-migration.c:401-446` | hence every run of such steps, in any interleaving, whose landings are in time |
| `MigrationPass.PassStep` | `qemu/block-migration.c:306-325` | one chunk of the final pass neither gains nor loses what the pass needs, and leaves the ends of disks alone |
| `MigrationPass.PassExact` | `qemu/block-migration.c:298-329` | for disks of any size, a complete final pass leaves equal disks if and only if every whole chunk unmarked before it was at the receiver, and so was what lies behind the last whole chunk |
| `MigrationPass.Converges` | `qemu/block-migration.c:401-469` | for every run of guest writes, reads, completions and flushes, and a complete final pass, if asynchronous writes land in time and whatever was read and not sent is marked, replaying the stream leaves a disk equal to its source if and only if the two agreed behind the last whole chunk |
| `MigrationPass.DrainedIsOvertaken` | `qemu/block-migration.c:441-453` | that condition holds when nothing is in flight and the queue is empty |
| `MigrationPass.PassPossible` | `qemu/block-migration.c:306-325` | a final pass can be completed if and only if no disk ends in a marked part of a chunk: it reads whole chunks, which fails behind the end of a disk |
| `MigrationPass.OnlyChunks` | `qemu/block-migration.c:79-93` | whatever the sizes, only whole aligned chunks are ever sent |
| `MigrationPass.ReplayKeepsTail` | `qemu/block-migration.c:502` | no stream of whole chunks changes what lies behind the last whole chunk |
| `MigrationSure.RunOnce` | `qemu/block-migration.c:140-210` | over every run, a chunk on its way has not been sent before, and is on its way once |
| `MigrationSure.UnsentIsKept` | `qemu/block-migration.c:380-394` | so what the receiver holds of an unsent chunk is what it held before the migration |
| `MigrationSure.LeftBehind` | `qemu/block-migration.c:380-394` | for every run that leaves a chunk not up to date, there is a receiver that meets the requirements of a start and that the pass will not repair |
| `MigrationSure.SureIffUpToDate` | `qemu/block-migration.c:363-378` | over every run, whenever writes land, the pass can be relied on for every receiver that could have started the migration if and only if every chunk is marked, or was last sent as it is now, or was never sent and is in the shared base as it was |
| `MigrationSure.SureIffHarmless` | `qemu/block-migration.c:363-378` | over every run whose landings are in time: if and only if every unsent chunk is marked, or lay wholly in the shared base and is unchanged |
| `MigrationSure.SureIffOvertaken` | `qemu/block-migration.c:363-378` | and without a shared base: if and only if every unsent chunk is marked |
| `MigrationLate.LandExact` | `qemu/block.c:1576-1581` | at any moment, as long as no read has failed, a landing keeps the invariant if and only if it changes no whole chunk that has been read and is not marked any more |
| `MigrationLate.LandCaughtExact` | `qemu/block.c:1576-1581` | when everything the pass needs is there, it still is after a landing if and only if that is in time |
| `MigrationLate.LateIsLost` | `qemu/block-migration.c:189-200` | a landing that comes too late loses its chunk at every receiver, whatever follows, unless the guest writes to the chunk again or a read of it picks the data up |
| `MigrationLate.LandingDecides` | `qemu/block-migration.c:401-453` | over whole runs and for every receiver: after landings in time, one more landing, and the delivery of everything read, the pass has what it needs if and only if that landing was in time |
| `MigrationLate.CarefulIsTimely` | `qemu/block-migration.c:189-200` | if bulk reads waited for the pending writes to their chunk, and none were pending at the start, every landing would be in time |
| `MigrationLimits.LostBlock` | `qemu/block-migration.c:363-394` | a run without errors in which stage 2 counts as completed and a block is lost |
| `MigrationLimits.LostWrite` | `qemu/block-migration.c:189-200` | a run without errors, at the end of which nothing is on its way or marked, and an asynchronous guest write is lost because a bulk read reset its mark before it landed |
| `MigrationLimits.ReachableIffSameTail` | `qemu/block-migration.c:87-92` | streams of whole chunks, whoever sends them, can turn one disk into another of its size if and only if they agree behind the last whole chunk |
| `MigrationLimits.TailRewritten` | `qemu/block-migration.c:306-325` | a run after which the receiver has the very disk, and no final pass can be completed because the guest wrote to its end again |
| `Migration.BlkMigState.ReadCallback` | `qemu/block-migration.c:127-138` | the read moves from in flight to the end of the queue; submitted and read_done keep counting both |
| `BlockDefs.IsAllocated` | `qemu/block-migration.c:151-152` | the state of a sector, and as long a run of sectors in the same state as the limit and the disk allow |
| `Migration.BlkMigState.SkipUnallocated` | `qemu/block-migration.c:149-155` | ends at the first allocated sector of a shared base, skipping only unallocated ones |
| `Migration.BlkMigState.SaveDeviceBulk` | `qemu/block-migration.c:140-210` | takes exactly one bulk step (read, skip to the end, or refusal), returns 1 exactly when the device is read to its end, and moves cur_sector on otherwise |
| `Migration.BlkMigState.SaveBulkedBlock` | `qemu/block-migration.c:263-294` | works on the first unfinished device and no other, returns 0 exactly if there is none, makes progress otherwise; the percentage is of the sectors completed up to that device and at most 100 |
| `Migration.BlkMigState.ReportProgress` | `qemu/block-migration.c:284-291` | a progress record exactly when the percentage changes, and it is at most 100 |
| `Migration.BlkMigState.FlushBlks` | `qemu/block-migration.c:331-361` | sends from the head of the queue only; raises an error exactly if it comes to a failed read, and stops otherwise only when the file takes no more blocks or the queue is empty; read_done plus transferred stays constant |
| `Migration.BlkMigState.ReadAhead` | `qemu/block-migration.c:431-439` | submits bulk reads until the rate limit is filled or every bulk pass is complete |
| `Migration.BlkMigState.SaveDirtyBlocks` | `qemu/block-migration.c:298-329` | takes steps of the final pass only, and leaves no mark below cur_sector when it succeeds; without a driver error it succeeds if and only if no disk ends in a marked part of a chunk |
| `Migration.BlkMigState.IsStage2Completed` | `qemu/block-migration.c:363-378` | nothing in flight and every bulk pass complete; the queue does not enter into it |
| `Migration.BlkMigState.Init` | `qemu/block-migration.c:221-261` | one fresh device for every disk with sectors, in order |
| `Migration.BlkMigState.BlockSaveLive` | `qemu/block-migration.c:401-469` | for every stage, a run of the sender's own steps followed in stage 3 by a complete final pass, the 100 percent record and the end marker; the exact return value; an error only after a driver error, a failed read, or a marked end of a disk |
| `Migration.SumsBounded` | `qemu/block-migration.c:270-284` | completed sectors never exceed the total |
| `Migration.OwnStepsKeepDisks` | `qemu/block-migration.c:401-469` | the sender's own steps leave the disks alone |
| `Migration.CompletedStaysIdle` | `qemu/block-migration.c:363-378` | after a completed stage 2 nothing new is read, and the queue only loses its head |
| `Migration.Stage3Delivers` | `qemu/block-migration.c:448-468` | an error-free stage 3 delivers the stopped guest's disks if unsent chunks are marked; each exactly if the receiver had what lies behind its last whole chunk |
| `Migration.MigrationDelivers` | `qemu/block-migration.c:401-469` | the same for a whole migration from stage 1 on, also with a shared base, if landings are in time |
| `Migration.BlkMigState.Migrate` | `qemu/migration.c:377-406` | the stages as code, with guest writes, landings and completions in between: a migration that ends without an error, whose landings were in time and whose unsent chunks are marked, leaves any receiver with the disks of the stopped guest |
| `BlockStream.BeRoundTrip` | `qemu/savevm.c:627-665` | big-endian numbers are read back |
| `BlockStream.HeaderRoundTrip` | `qemu/block-migration.c:481-484` | flags always survive the header word, the sector number if and only if it is below 2^54 |
| `BlockStream.BlockLoad` | `qemu/block-migration.c:471-523` | the loop computes the section reader |
| `BlockStream.ItemRoundTrip` | `qemu/block-migration.c:79-93` | an encoded item is read back as what it means, leaving the bytes behind it |
| `BlockStream.SectionRoundTrip` | `qemu/block-migration.c:471-523` | a section is performed in order, stopping right behind its end marker |
| `BlockStream.UnknownDevice` | `qemu/block-migration.c:492-497` | an unknown device ends the load with -EINVAL after everything before it was performed |
| `MigrationEndToEnd.SectorsRoundTrip` | `qemu/block-migration.c:92` | the bytes of a block are its sectors |
| `MigrationEndToEnd.DeliverIsReplay` | `qemu/block-migration.c:486-504` | performing the items by device name is replaying the records by device number |
| `MigrationEndToEnd.SectionsRoundTrip` | `qemu/block-migration.c:471-523` | all sections of a stream, loaded one after the other |
| `MigrationEndToEnd.RunStaysOk` | `qemu/block-migration.c:79-93` | everything a run emits can be encoded |
| `MigrationEndToEnd.EndToEnd` | `qemu/block-migration.c:401-523` | if landings are in time and unsent chunks are marked, loading the bytes of a whole migration leaves the receiver with the disks of the stopped guest: all those of whole chunks, and any other exactly if its end was there already |
| `DirtyBitmap.Word32Laws` | `qemu/block.c:652-660` | setting and clearing one bit of a 32-bit word leaves the others |
| `DirtyBitmap.VisitedIsTouched` | `qemu/block.c:648-651` | the loop visits the chunks that the request overlaps |
| `DirtyBitmap.BytesCoverChunks` | `qemu/block.c:2131-2135` | there is a bit for every chunk and less than a byte too many |
| `DirtyBitmap.InsideIffWholeWords` | `qemu/block.c:2131-2135` | every chunk's word lies inside the allocation if and only if the allocation consists of whole words |
| `DirtyBitmap.OneChunkIsOutside` | `qemu/block.c:2131-2135` | a disk of one chunk gets one byte, and its only word reaches past it |
| `DirtyBitmap.LastWordDecides` | `qemu/block.c:651-655` | the words of a request lie inside the allocation if and only if the last one does |
| `DirtyBitmap.DirtyTracker.SetDirtyTracking` | `qemu/block.c:2125-2143` | switching tracking on allocates the bytes counted and starts with no mark, switching it on again keeps the marks |
| `DirtyBitmap.DirtyTracker.SetDirtyBitmap` | `qemu/block.c:642-662` | exactly the visited chunks change, all others keep their mark, also in the same word; the accesses stay inside the allocation if and only if all visited words lie there |
| `DirtyBitmap.DirtyTracker.GetDirty` | `qemu/block.c:2145-2156` | the mark of the sector's chunk, for sectors of the disk, and whether it was read from inside the allocation |
| `DirtyBitmap.MarkedSinceReset` | `qemu/block.c:642-662` | of a history: the last event that visits a chunk decides exactly if some write touched it and no later reset did |
| `DirtyBitmap.DirtyAfter` | `qemu/block.c:642-662` | after any sequence of writes and resets on a fresh bitmap, bdrv_get_dirty is true if and only if some write touched the sector's chunk and no later reset did |
| `WordBits.WideWords` | `qemu/block.c:656` | as a 64-bit word the shifted int is the mask of one bit if and only if the bit is below 31 |
| `WordBits.WideWordsAsSets` | `qemu/block.c:655-660` | for 64-bit words used as sets of bits below n, setting and clearing with the shifted int leave the other bits alone if and only if n is at most 31 |
| `IteratedCipher.Retrace` | `qemu/aes.c:1171-1250` | r steps of decryption lead back over the last r rounds of encryption |
| `IteratedCipher.DecryptUndoesEncrypt` | `qemu/aes.c:885-1262` | decryption under the reversed, transformed schedule undoes encryption, for any number of rounds |
| `IteratedCipher.ViewCipher` | `qemu/aes.c:885-1262` | ciphers whose rounds agree through a view agree on whole blocks |
| `Rijndael.InvMixAdds` | `qemu/aes.c:856-876` | InvMixColumns is linear |
| `Rijndael.InvMixAfterMix` | `qemu/aes.c:46-58` | InvMixColumns undoes MixColumns |
| `Rijndael.RoundBack` | `qemu/aes.c:1172-1227` | a decryption round with a transformed key steps back over an encryption round |
| `Rijndael.AesRetraces` | `qemu/aes.c:885-1262` | the rounds of FIPS 197 retrace each other |
| `WordCipher.RoundsCommute` | `qemu/aes.c:981-1036` | rounds on words are rounds on bytes if their lines are columns |
| `AesTables.TablesExist` | `qemu/aes.c:46-58` | every substitution with an inverse has tables as the comment describes them |
| `AesTables.EncryptLineColumn` | `qemu/aes.c:982-987` | a line of five XORed terms is a column of SubBytes, ShiftRows, MixColumns and AddRoundKey |
| `AesTables.DecryptLineColumn` | `qemu/aes.c:1173-1178` | the same for decryption |
| `AesTables.LastEncryptLineColumn` | `qemu/aes.c:1042-1047` | a masked line of the last round is a column without MixColumns |
| `AesTables.LastDecryptLineColumn` | `qemu/aes.c:1233-1238` | the same for decryption |
| `AesTables.InvMixLineColumn` | `qemu/aes.c:856-860` | looking a key byte up in Te4 and then in Td sends its word through InvMixColumns |
| `AesTables.CodeFits` | `qemu/aes.c:46-58` | with the tables of the comment, every line of the code computes its column |
| `Aes.EncryptLoop` | `qemu/aes.c:980-1036` | the loop of two rounds per iteration, left in the middle of the last one, runs all inner rounds |
| `Aes.DecryptLoop` | `qemu/aes.c:1171-1227` | the same for decryption |
| `Aes.EncryptAt` | `qemu/aes.c:885-1070` | writes the FIPS 197 encryption of 16 bytes and changes nothing else, also in place |
| `Aes.DecryptAt` | `qemu/aes.c:1076-1261` | writes the FIPS 197 decryption of 16 bytes, also in place |
| `AesKeys.RconTable` | `qemu/aes.c:722-726` | the round constants are the powers of 02 |
| `AesKeys.Expand` | `qemu/aes.c:756-825` | the key schedule loops write the key expansion of section 5.2 of FIPS 197 |
| `AesKeys.SetEncryptKey` | `qemu/aes.c:731-827` | the encryption schedule and number of rounds of a key of 128, 192 or 256 bits; -1 and -2 leave everything as it was |
| `AesKeys.ReverseKeys` | `qemu/aes.c:845-851` | swapping from both ends reverses the round keys |
| `AesKeys.SetDecryptKey` | `qemu/aes.c:832-879` | the decryption schedule: reversed, inner keys sent through InvMixColumns |
| `AesCbc.DecryptBlockUndoes` | `qemu/aes.c:885-1262` | AES decryption undoes AES encryption for all round keys and blocks |
| `AesCbc.KeyedCipherSound` | `qemu/aes.c:731-1262` | so it does for the schedules of every user key |
| `Cbc.CbcRoundTrip` | `qemu/aes.c:1265-1314` | decrypting with the same vector returns the plaintext, for every length |
| `Cbc.EncryptionChains` | `qemu/aes.c:1277-1285` | over whole blocks, two calls that carry the vector encrypt like one call |
| `Cbc.DecryptionChains` | `qemu/aes.c:1296-1304` | the same for decryption |
| `AesCbc.CbcCrypt` | `qemu/aes.c:1265-1314` | the code computes CBC with a zero-padded last block and leaves the carried vector, also in place |
| `AesCbc.AesCbcRoundTrip` | `qemu/aes.c:1265-1314` | CBC under every key returns the plaintext |
| `AesCbc.ThereAndBack` | `qemu/aes.c:731-1314` | key set-up, encryption in place and decryption in place leave the message as it was |
| `Feistel.ReversedKeysUndo` | `qemu/d3des.c:347-372` | Feistel rounds under reversed subkeys undo the rounds, for any round function |
| `Des.FinalAfterInitial` | `qemu/d3des.c:327-345` | the final permutation of swapped halves undoes the initial one |
| `Des.InitialAfterFinal` | `qemu/d3des.c:374-393` | the initial permutation of the final one's result is its argument with the halves swapped |
| `Des.EightDoubleRounds` | `qemu/d3des.c:347-372` | the loop of double rounds computes sixteen Feistel rounds |
| `Des.DesFunc` | `qemu/d3des.c:322-394` | desfunc computes the block function |
| `Des.ReversedScheduleUndoes` | `qemu/d3des.c:322-394` | the block function under the reversed subkeys takes every block back, for arbitrary SP tables |
| `DesKeys.RotatedHalves` | `qemu/d3des.c:83-92` | the register loops rotate both halves left |
| `DesKeys.KeyRegister.CooKey` | `qemu/d3des.c:102-122` | subkeys are rearranged pair by pair |
| `DesKeys.KeyRegister.DesKey` | `qemu/d3des.c:67-100` | DE1 stores the sixteen subkeys of EN0 in reverse |
| `DesKeys.KeyRegister.UseKey` | `qemu/d3des.c:133-140` | loads the key register |
| `DesKeys.KeyRegister.CopyKey` | `qemu/d3des.c:124-131` | reads the key register out |
| `DesKeys.BlockRoundTrip` | `qemu/d3des.c:152-176` | scrunch and unscrun are inverse |
| `DesKeys.DesInverse` | `qemu/d3des.c:67-176` | for every key and block, DE1 undoes EN0 and EN0 undoes DE1 |
| `DesKeys.DesCrypt` | `qemu/d3des.c:142-150` | des computes the cipher, also in place |
| `DesKeys.ThereAndBack` | `qemu/d3des.c:67-176` | encrypting and decrypting a block in place restores it |
| `Bits.DropBit` | `qemu/cris-dis.c:1371-1372` | v & (v - 1) has one bit less than v |
| `Bits.NumberOfBits` | `qemu/cris-dis.c:1366-1375` | counts the one bits |
| `CrisOpcodes.SpecRegFrom` | `qemu/cris-dis.c:1332-1362` | what is found is the first register that fits, and nothing exactly if none does |
| `CrisOpcodes.FindSpecReg` | `qemu/cris-dis.c:1332-1362` | the first special register that fits the number and the family, nothing exactly if none fits |
| `CrisOpcodes.ConstraintByClass` | `qemu/cris-dis.c:1601-1752` | a constraint string cannot tell two prefixes of one class apart, because registers are 1, 2 or 4 bytes wide |
| `CrisOpcodes.ScanByClass` | `qemu/cris-dis.c:1490-1580` | neither can the scan of any opcode table |
| `CrisOpcodes.BestIsBest` | `qemu/cris-dis.c:1553-1579` | the scan finds the first row of the highest level, or the first full match, and nothing exactly if no row matches |
| `CrisOpcodes.BestIsUnique` | `qemu/cris-dis.c:1553-1579` | there is only one such row |
| `CrisMemo.Memo.GetOpcodeEntry` | `qemu/cris-dis.c:1377-1595` | with a fixed family, a lookup returns what a fresh scan for that instruction and prefix would, whatever the tables have learnt, and keeps them sound |
| `CrisMemo.Memo.MatchConstraint` | `qemu/cris-dis.c:1601-1752` | cris_constraint through the memo tables is cris_constraint without them |
| `CrisMemo.StoredIsSound` | `qemu/cris-dis.c:1581-1592` | an entry scanned for one prefix is right for its whole class |
| `CrisMemo.CarryOverIffAgree` | `qemu/cris-dis.c:1386-1396` | what lookups for one family leave in the tables is right for another if and only if scanning for the other finds the same row wherever the first finds one |
| `CrisMemo.OldFamiliesShare` | `qemu/cris-dis.c:1616-1623` | the two families before V32 can share tables if no row of the opcode table has a "!" |
| `CrisMemo.FamiliesDoNotMix` | `qemu/cris-dis.c:576-578` | with the rows "dip" and "lapcq" of the opcode table, which share a word, tables of the V32 family and of v0 to v10 are wrong for each other |
| `IoVectors.IoVector.Concat` | `qemu/cutils.c:176-193` | appends the buffers of the source up to a limit, the last one cut to fit |
| `IoVectors.FlattenCut` | `qemu/cutils.c:170-193` | what is appended is a prefix of the source's bytes |
| `Multiwrite.JoinData` | `qemu/block.c:1679-1703` | a merged vector is the first request up to the start of the second, zeros for any gap, and the second |
| `Multiwrite.CompareIffNear` | `qemu/block.c:1637-1640` | the comparison tells a request from a later one if and only if their distance, modulo 2^32, is positive and below 2^31 |
| `Multiwrite.PairSortedIffNear` | `qemu/block.c:1637-1652` | of two requests, sorting is sure to leave the earlier in front if and only if that holds |
| `Multiwrite.OrderedIsSorted` | `qemu/block.c:1651-1652` | of a batch in which it holds for every two, what sorting leaves is in order of sectors |
| `Multiwrite.MergeRequests` | `qemu/block.c:1646-1715` | the in-place loop leaves the merged requests at the front of the array, in whatever order it gets them |
| `Multiwrite.MergePreserves` | `qemu/block.c:1654-1712` | merging a sorted disjoint batch keeps sizes, order and the disk |
| `Multiwrite.OrderDoesNotMatter` | `qemu/block.c:1651-1652` | disjoint requests leave the same disk in any order |
| `Multiwrite.MergingPreservesMeaning` | `qemu/block.c:1637-1715` | for every disjoint batch whose distances survive the comparison, the merged requests leave the same disk as the originals, each with nb_sectors * 512 bytes |
| `Multiwrite.FarRequestsAreLost` | `qemu/block.c:1637-1700` | two disjoint requests whose distance does not survive may be merged at the later one's start, and then the earlier sectors are not written |
| `Multiwrite.SizeIffAbutting` | `qemu/block.c:1702` | the merged sector count fits the merged vector if and only if the two requests abut |
| `Multiwrite.OverlapExact` | `qemu/block.c:1685-1700` | merging overlapping requests stands for both writes if and only if the second reaches as far as the first, or what is lost was on the disk |
| `Multiwrite.WithinIovMax` | `qemu/block.c:1675-1677` | no merged vector exceeds the limit on its buffers |
| `MultiwriteCompletion.FirstErrorIs` | `qemu/block.c:1623-1626` | the first error is that of the earliest failed request, and 0 if none failed |
| `MultiwriteCompletion.MultiwriteCB.Cb` | `qemu/block.c:1619-1635` | callbacks run at the first error or at the end, never twice; the block is freed with the last request |
| `MultiwriteCompletion.MultiwriteCB.Submit` | `qemu/block.c:1731-1781` | a refused first request fails without callbacks, a later one reports -EIO once; as many completions remain as were submitted |
| `MultiwriteCompletion.MultiwriteCB.CompleteAll` | `qemu/block.c:1605-1635` | over all completion orders every user callback runs exactly once with the first error or 0, and then the block is freed |
| `ByteAccess.BlockDevice.Pread` | `qemu/block.c:688-731` | on success exactly the bytes asked for; without driver errors it succeeds if and only if their sectors are on the device |
| `ByteAccess.BlockDevice.Pwrite` | `qemu/block.c:733-780` | on success exactly that slice is replaced; otherwise a front part of it and nothing else; and exactly when it succeeds |
| `ByteAccess.BlockDevice.WriteThenRead` | `qemu/block.c:688-780` | bytes written at any offset and read again are the same bytes; exactly when both succeed |
| `Commit.Overlay.BdrvCommit` | `qemu/block.c:558-598` | the guest's view never changes, even if emptying the overlay fails half way; on success the backing image holds it and the overlay is empty if it can be; sectors are only given up after all were copied; each error code, and exactly when it succeeds |
| `Dma.Advance` | `qemu/dma-helpers.c:101-111` | moving on within the list extends what has been covered by exactly those bytes |
| `Dma.UptoIsPrefix` | `qemu/dma-helpers.c:100-112` | every position stands for a prefix of the list |
| `Dma.MapsContinue` | `qemu/dma-helpers.c:100-112` | what was mapped, in whatever pieces, continues the list from the current position |
| `Dma.IssuedIs` | `qemu/dma-helpers.c:82-131` | whatever the pieces and failures, the batches issued are the list up to the position reached; as long as they are whole sectors, each starts at the first sector plus bytes done / 512 |
| `Dma.DmaAiocb.MapAll` | `qemu/dma-helpers.c:100-112` | maps from the current position on, to the end of the list or the next failure |
| `Dma.DmaAiocb.BdrvCb` | `qemu/dma-helpers.c:82-131` | each batch is handed over with iov.size / 512 sectors; the request ends at the end of the list or with an error, waits for memory, or issues more |
| `Dma.DmaAiocb.Run` | `qemu/dma-helpers.c:54-131` | the callback runs exactly once; without an error the whole list was issued in order, and it was moved if and only if every batch had whole sectors; such batches start at the first sector plus bytes done / 512 |
| `Dma.AllMovedIffWhole` | `qemu/dma-helpers.c:120-125` | of every complete sequence of batches: the sectors asked for take up the whole list if and only if every batch has whole sectors |
| `Dma.NothingMoved` | `qemu/dma-helpers.c:105-125` | a list of one sector, mapped as 100 and 412 bytes, ends without an error and nothing is moved |
| `BottomHalves.RunStep` | `qemu/async.c:144-152` | running one due half, whatever its callback does, carries the walk one half on |
| `BottomHalves.Scheduler.Poll` | `qemu/async.c:138-166` | walks over the list, running what is due when the walk comes to it, sweeps out the deleted halves, and returns 1 if and only if it ran a half that was not idle |
| `BottomHalves.PolledIsWalked` | `qemu/async.c:138-166` | hence every half runs at most once, every due half that is not dropped exactly once, no half of another context; no request to schedule is lost or invented; the undeleted halves stay in order |
| `BottomHalves.RescheduledStays` | `qemu/async.c:144-152` | a due half that is not dropped is run, and scheduled after the poll if and only if it was scheduled again |
| `BottomHalves.KeptIs` | `qemu/async.c:154-163` | exactly the undeleted halves are kept, without repetition |
| `BottomHalves.PollIsQuiet` | `qemu/async.c:65-105` | while an inner context is active no half of an outer one is run |
| `BottomHalves.Scheduler.Pop` | `qemu/async.c:85-105` | polls until a poll returns 0; the parent's list returns with exactly one new scheduled half in front; nothing due is left behind unless the first half due in the last poll was idle |
| `BottomHalves.PopLeavesNothing` | `qemu/async.c:85-105` | in particular nothing is left behind if no half of the inner context is scheduled as idle when the pop starts, and none is while it polls |
| `BottomHalves.SureIffNotIdleFirst` | `qemu/async.c:90-95` | a poll that returns 0 is sure to leave nothing due, whatever the callbacks do, if and only if the first half that is due when it starts, if any, is not an idle one |
| `BottomHalves.Scheduler.Section` | `qemu/async.c:65-105` | the same for everything between a push and its pop, nested to any depth: nothing outside runs, and one half is left in front |
| `BottomHalves.Scheduler.Create` | `qemu/async.c:127-136` | a new half goes in front, unscheduled |
| `BottomHalves.Scheduler.Schedule` | `qemu/async.c:168-184` | scheduling a scheduled half changes nothing |
| `BottomHalves.Scheduler.Drop` | `qemu/async.c:186-195` | cancelling and deleting take a half off the schedule |
| `BottomHalves.IdleLeavesWork` | `qemu/async.c:90-95` | an instance: the poll runs an idle half, returns 0, and the pop drops a half that its callback has scheduled |
| `BufferedFile.QemuFileBuffered.Append` | `qemu/buffered_file.c:49-71` | appends, growing the buffer without changing it |
| `BufferedFile.QemuFileBuffered.Flush` | `qemu/buffered_file.c:73-108` | moves a front part of the buffer to the backend; something is left exactly if the backend stalled or failed; the output is newly frozen exactly if it stalled, and has a new error exactly if it failed |
| `BufferedFile.QemuFileBuffered.PutDirect` | `qemu/buffered_file.c:128-151` | what goes straight to the backend is a front part of the data; it ends early only when frozen, over the limit, or failed; freezes and errors exactly as the backend stalls and fails |
| `BufferedFile.QemuFileBuffered.PutBuffer` | `qemu/buffered_file.c:110-160` | without an error, what was taken and what is buffered is everything put, in order; an error is new exactly if the backend failed |
| `BufferedFile.QemuFileBuffered.RateTick` | `qemu/buffered_file.c:221-239` | a tick resets the transfer count and flushes, unless frozen or failed; an error is new exactly if the backend failed |
| `BufferedFile.QemuFileBuffered.Close` | `qemu/buffered_file.c:162-183` | closing delivers everything in order, unless the backend fails or has failed before |
| `Calendar.OneDayOn` | `qemu/cutils.c:107-108` | the closed form grows by one from each day to the next, through all month ends and leap rules |
| `Calendar.DayNumberCounts` | `qemu/cutils.c:107-108` | the closed form equals the count of days from 1970-01-01, one at a time |
| `Calendar.DayNumberIncreases` | `qemu/cutils.c:107-108` | later days have larger numbers |
| `Calendar.MkTimeGm` | `qemu/cutils.c:99-111` | seconds since the epoch, by the day count |
| `Calendar.FitsUntil2038` | `qemu/cutils.c:107` | the product fits a 32-bit int if and only if the day lies between 1901-12-14 and 2038-01-19 |
| `ConsoleRings.Fifo.Write` | `qemu/console.c:64-85` | appends as much as there is room for, with the write index at read index plus count |
| `ConsoleRings.Fifo.Read` | `qemu/console.c:87-107` | takes as much as there is from the front |
| `ConsoleRings.RingSplit` | `qemu/console.c:94-104` | the bytes of a ring are those up to its end and then those from its start |
| `ConsoleRings.Screen.PutLf` | `qemu/console.c:681-703` | scrolling makes row i what row i + 1 was, blanks the last row and no other row of the ring, for any base |

## Left out

- Opcode and register name tables, operand printing, and the other disassemblers: bulk data and text.
- Execution, translation, device emulation, host I/O, system calls, the monitor and the user interface.
- The contents of the AES S-box and of the SP tables: the theorems hold for every table with the stated property.
- `AesKeys.Expand`: the three loops over key sizes are written as one loop over the number of key words, with the same words in the same order.
- `DesKeys.KeyRegister.DesKey`: words are 32 bits wide; an `unsigned long` of 64 bits holds further high bits between the rounds that this does not show.
- `Migration.BlkMigState.BlockSaveLive`: devices and blocks are values in sequences, not linked records, so sharing between a block and its device is a device number.
- `Migration.BlkMigState.ReadAhead`: integers are unbounded, while the code multiplies the number of blocks by BLOCK_SIZE as an int.
- The receiver's block drivers: a `bdrv_write` there either fits or is refused.
- `BlockStream.BlockLoad`: a stream that ends inside an item is one outcome; what block_load does with the bytes of an incomplete item is not modelled, nor are the section headers that savevm.c writes between sections.
- `DirtyBitmap.DirtyTracker.SetDirtyTracking`: words are little-endian, so that the bits of the chunks lie in the bytes that were cleared; nobody else writes to the word that the allocation ends in.
- `CrisMemo.Memo.GetOpcodeEntry`: the six tables of pointers are maps from instruction words to rows; opcode versions that make the scan abort are excluded.
- `Multiwrite.MergeRequests`: starts after qsort, which is taken to leave no request that the comparison puts behind its successor, as a merge sort does; size_t has 64 bits; merge hooks of drivers may be anything, but the disk is compared for batches without one.
- `MultiwriteCompletion.MultiwriteCB.Submit`: completions inside the submission loop are excluded.
- `ByteAccess.BlockDevice.Pwrite`: devices that grow, and the marks that bdrv_write leaves in a dirty bitmap, are not part of it.
- `Commit.Overlay.BdrvCommit`: an overlay larger than its backing image sees unspecified sectors there.
- `Dma.DmaAiocb.Run`: the block layer is taken to move the sectors it is asked for, from the start of the vector; starts with a batch under way, so a first mapping that fails, a refused submission and an empty list are excluded; cancelling is not modelled.
- `BottomHalves.Scheduler.Poll`: halves are numbers in sequences, not linked records; callbacks that poll their own context are excluded.
- `BufferedFile.QemuFileBuffered.RateTick`: without the put_ready callback it ends with, and without its timer.
- `Calendar.MkTimeGm`: dates whose adjusted year is negative are excluded, because C rounds their quotients towards zero.
- `ConsoleRings.Screen.PutLf`: without redrawing.
- qemu_iovec_to_buffer and qemu_iovec_from_buffer, acl.c, cmd.c, bswap.h and the check programs: easy.
- cpu-exec.c and the CPU headers: setjmp, generated code and the TLB are not part of this model.
