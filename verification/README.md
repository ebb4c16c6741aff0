# Verified model of the OrderPy bridge

The bridge is a small Go program in a restaurant's network. It receives print jobs from a cloud service over one
websocket, turns them into ESC/POS bytes and writes them to thermal printers over TCP. A root shell script updates it.
This project models the parts of it that hold state or do arithmetic and proves what they keep in every run.

`dafny verify dfyconfig.toml` checks everything.

## What is modelled

**Printing.** `Transport` is the chunked, paced, per-endpoint serialised sender; `Spooling` is the spooler with its
bounded queue and its cache of logos in printer memory. Both are imperative: methods that write a transcript of
operations (take a mutex, dial, write, sleep, commit, ack), each proved to produce what a specification function says.
Network outcomes (dial refused, context cancelled, number of bytes a failing write got through) are inputs of each call.
On these transcripts:

- `Destinations` says in a job's own fields what handling it does: which endpoint gets which bytes and that no other gets
  any, which answer is given and what is left in the cache; for one job, for a run, and among all other goroutines.
- `LogoCoherence` runs them against the printers' memory. A cached slot holds the cached image exactly when the slot is
  not *dirty*, that is, when no byte of an upload reached it after its last commit. So a job acked as printed has its
  own image in the slot if and only if it was not answered from a dirty cache entry. `StaleLogoRun` is a run in which
  it was: an upload succeeds, its receipt fails, and the next job with the old logo hits the stale entry.
- `AckOrder`: one ack per job, in queue order, except for a job abandoned during the flash wait; what a positive ack
  means on the wire.
- `FlashSettle`: 4400 ms between the end of an upload and the spooler's next write to any printer.
- `Pacing`: at most 512 bytes per started 50 ms in any window, on every clock, if and only if a bucket that each write
  fills and each 50 ms slept drains by 512 never overflows. Successful sends never overflow it.

**All goroutines together.** `Interleaving` is a machine in which the spooler, the session, the health check and any
number of HTTP handlers run one operation at a time in any order. Its invariant gives mutual exclusion, atomic sends
and the spooler's sequential behaviour among the others (`SharedPrinters`); `Progress` proves that some goroutine can
move as long as work is left, also with the job channel full, and that runs without new arrivals end with everything done.
`SystemRuns` states this for every run from the start, `SharedLogos` that the logo cache is coherent in every such run and
which receipts find their logo, and `PrintedPaper` what the printers have printed, whoever sent the receipts.

**Receipts.** `EscPos` is a printer that interprets the seven commands used. `Receipts` builds the bytes,
`ReceiptBytes` says octet by octet which bytes they are, and `ReceiptPaper` proves that running them prints the intended
styled lines, feeds, cuts, and leaves the printer in its plain state. `Utf8`, `CodePage858`, `Cells` and `ItemRows` are
the column arithmetic, where cells are cut by bytes and padded by runes; `Money` says what is charged and relates the
printed prices to the printed total.

**Updates.** `UpdateRequests` are the patterns a request must match, `UpdateMailbox` is the hand-off through two files,
`InstallSwap` the directory swap with its rollback.

**Session state.** `ClaimToken`, `Lockout`, `Pairing`, `Registry` and `CloudPrints` (the session's own prints).

## Where the code does less than it promises

Each of these is proved. Where a promise fails for some inputs, the exact condition under which it holds is proved, too.

- A logo cache hit does not mean the slot holds that logo (`LogoCoherence.PrintedLogo`, `LogoCoherence.StaleLogoRun`).
- A table row is not always 48 columns. The price column cuts bytes, and an amount of exactly nine characters, such as
  123456.78, leaves two of the euro sign's three bytes, which collapse into one question mark (`ItemRows.PriceCut`,
  `ItemRows.ItemRowOfAnyName`). A rune that code page 858 lacks makes its whole line blank, unless its cell is cut before
  it: the encoder of golang.org/x/text returns no bytes with its error, and the retry with `?` only replaces invalid UTF-8
  (`CodePage858.EncodedLength`, `Cells.RowOfTexts`).
- The printed total is not always the sum of the printed prices (`Money.TotalCanDiffer`). It is if and only if the
  roundings of the prices add up to less than half a cent, or to half a cent while the sum is even
  (`Money.TotalAgrees`); with unit prices in whole cents it always is (`Money.WholePricesAgree`).
- A write that errors has no delay after it, so sends that fail can exceed the pace. They keep it exactly when the bucket
  of `Pacing.PaceExactly` does not overflow; two sends whose first writes error after a and b bytes keep it exactly when
  a + b is at most 512 (`Pacing.BrokenSendsOverrun`).
- internal/pairing/types.go says a request gets exactly one result. It gets at most one, because a displaced request or
  one pending at the end of a session gets none, and the result may be about somebody else's code. It is about the
  request's own code if and only if no earlier code is unanswered (`Pairing.OwnAnswer`, `Pairing.CrossedAnswer`).
- Not every update result is read. A result is read if and only if it was written whole and, of the later actions, the
  first that reads a result, writes one or removes the directory is one that reads (`UpdateMailbox.ResultRead`,
  `UpdateMailbox.ResultCanBeHidden`).
- README.md calls the swap of the installation atomic. There is a moment without any installation exactly when the backup
  is made (`InstallSwap.WithoutInstallation`); what holds at every moment is that a whole tree is in one of the two places
  (`InstallSwap.NeverWithoutATree`). Some runs leave no result (`InstallSwap.SilentExits`), and after
  `service_start_failed` the previous version is put back but not started (`InstallSwap.LeftStopped`).
- A print order with an id is reported as printed whatever became of its sends (`CloudPrints.PrintedWithoutPrinting`).
  The report is right if and only if every send succeeded, and for an order without an id if and only if some send failed
  (`CloudPrints.ReportRight`).

## Assumptions

- Printers: bytes of a prelude change only its own slot; a partial upload leaves the slot unusable; a hash determines
  the image; different addresses are different devices. A write that errors has accepted less than its chunk.
- Clocks do not go backwards, and a sleep lasts at least as long as asked. Once the context is cancelled it stays
  cancelled, and a dial under it fails.
- Random bytes for claim tokens do not repeat.
- Each sequence of file operations in the update hand-off is one step. When the updater reaches the swap there is an
  installation, since its public key was read from there. Stopping the service stops it, and an exit code 0 of
  `systemctl start` is taken to mean that it runs, any other that it does not; the unit is of type simple, so 0 means that the process was started.
  A failed start may remove the runtime directory with what is in it. A move between INSTALL and OLD is a rename, a move
  of the new tree and every removal go through partial trees. The commands between the move and the start of the service
  count as one that may fail.
- Code page 858 is the published table: code page 850 with the euro sign at 0xD5, stated from octets to runes and from
  runes to octets. Its encoder stops at the first rune it
  lacks or invalid octet and then returns an error and no bytes.

## Model

| member | source | states |
|---|---|---|
| Keys.SplitGlued | internal/printer/tcp.go:38 | gluing text, a separator and a decimal number is undone by splitting at the last separator, whatever the text contains |
| Keys.EndpointKeyInjective | internal/printer/tcp.go:37-41 | two endpoints share a lock only if address and port are equal, even if addresses contain colons |
| Keys.SlotKeyInjective | internal/spooler/spooler.go:127 | two printer slots share a cache entry only if address, port and slot are equal |
| Keys.KeyForms | internal/spooler/spooler.go:127 | the two keys written out: address, colon, port, and for a slot a bar and its number |
| Decimal.ParsePrint | internal/spooler/spooler.go:127 | decimal printing of any integer can be read back |
| Decimal.Digits | internal/spooler/spooler.go:127 | the ten digits, and where the tens and the sign go |
| Transport.WriteChunks | internal/printer/tcp.go:70-82 | the write loop performs exactly the chunk sequence of its payload up to the failing chunk, and returns nil if and only if all of it was written |
| Transport.SendBytes | internal/printer/tcp.go:44-56 | an invalid endpoint does nothing; otherwise lock, dial, chunks, 400 ms after a success only, unlock; nil exactly for an address, a port from 1 to 65535, a live context, a connection, and no failing write within the payload |
| Transport.SendShape | internal/printer/tcp.go:44-56 | the operations of a call written out: the lock and the dial are those of the address given, nothing is written elsewhere, 400 ms are slept if and only if the call succeeds |
| Transport.WritesAndPauses | internal/printer/tcp.go:70-81 | closed form of the write loop: write i starts at octet 512i, 50 ms lie between any two writes, the write that fails gets a proper part of its chunk through and is the last |
| Transport.SendDelivers | internal/printer/tcp.go:58-83 | the printer gets a prefix of the payload, nothing when the dial fails, and all of a non-empty payload if and only if nil is returned |
| Transport.ChunkShape | internal/printer/tcp.go:70-81 | the chunks of a completed payload concatenate to it, number ceil(n/512), and only the last may be short |
| Pacing.PacingBound | internal/printer/tcp.go:29-31 | for any part of any sends to one endpoint, a window of T ms sees at most 512 * (T/50 + 1) bytes plus one chunk per errored write; no extra term when all succeed |
| Pacing.PaceExactly | internal/printer/tcp.go:70-81 | a log keeps 512 * (T/50 + 1) bytes in every window on every clock if and only if the bucket filled by writes and drained by sleeps never exceeds 512 |
| Pacing.SendsPacedExactly | internal/printer/tcp.go:44-83 | the same for any part of any sends to one endpoint, whatever fails; successful sends never overflow the bucket |
| Pacing.BrokenSendsOverrun | internal/printer/tcp.go:75-77 | two sends whose first writes error after a and b bytes keep the bound if and only if a + b is at most 512 |
| Spooling.Spooler.constructor | internal/spooler/spooler.go:44-49 | an empty queue of the given size, or 1024 for a size below one, and an empty cache |
| Spooling.Spooler.Enqueue | internal/spooler/spooler.go:51-53 | the job is appended, unless the channel is full, in which case the send does not happen |
| Spooling.Spooler.LogoPrelude | internal/spooler/spooler.go:123-146 | an upload is due exactly for a non-empty hash that is not the cached one and comes with a decodable, non-empty image; the cache is consulted only for a non-empty hash |
| Spooling.Spooler.Handle | internal/spooler/spooler.go:66-118 | handling a job performs the specified tasks in every outcome, and the cache changes only by the commit after a complete receipt |
| Destinations.TasksAreOwn | internal/spooler/spooler.go:66-118 | in the job's own fields: every send, slot, commit and answer of those tasks is for its address, its port (9100 for 0), its slot, hash and id; a logo is uploaded exactly when due |
| Destinations.StepByStep | internal/spooler/spooler.go:66-118 | the steps of a job in order, for every outcome: consult, upload, note, wait, send, commit, answer |
| Destinations.AnsweredInOwnTerms | internal/spooler/spooler.go:72-117 | in the job's own fields: its one answer and error class, none if it asked for none or was dropped in the flash wait, and the cache entry it leaves |
| Destinations.JobGoesHome | internal/spooler/spooler.go:67-71 | the job's address at its port, 9100 for 0, gets a prefix of the due upload and the receipt, all of it when all went through; every other endpoint gets nothing |
| Destinations.RunGoesHome | internal/spooler/spooler.go:55-118 | of any run each endpoint gets exactly the shares of the jobs, in queue order |
| Destinations.SpoolerGoesHome | internal/spooler/spooler.go:55-118 | whatever other goroutines do, what the spooler has written to an endpoint begins these shares |
| Spooling.Spooler.Run | internal/spooler/spooler.go:55-64 | jobs are handled in channel order, each with the cache the earlier ones left |
| LogoCoherence.JobCoherent | internal/spooler/spooler.go:86-114 | whatever fails and whenever it is cancelled, a job keeps: a cached slot holds the cached image if and only if it is not dirty |
| LogoCoherence.FreshRunCoherent | internal/spooler/spooler.go:37-41 | after every prefix of every run of a fresh spooler the cache is coherent with the printers, whatever they held before |
| LogoCoherence.PrintedLogo | internal/spooler/spooler.go:103-117 | a job acked as printed, cached or with an image, printed with its own image in the slot if and only if it was not answered from a dirty entry |
| LogoCoherence.PrintedLogoInRun | internal/spooler/spooler.go:66-118 | the same for the n-th job of any run |
| LogoCoherence.StaleLogoRun | internal/spooler/spooler.go:103-109 | the run "a", "b" with failing receipt, "a": the third job is acked without an upload while the slot holds "b" |
| AckOrder.RunAcks | internal/spooler/spooler.go:72-118 | the acks of a run are exactly one per job with a callback, in queue order, positive exactly for jobs that succeeded, format_error for those that could not be rendered, print_error for the others, and none for a job abandoned in the flash wait |
| AckOrder.JobDelivers | internal/spooler/spooler.go:86-109 | the wire gets a prefix of the due prelude followed by the receipt, and the whole of both when the job succeeded |
| SharedLogos.CommitsMakeCache | internal/spooler/spooler.go:110-114 | the cache after a run is what the commits in its transcript make of it |
| FlashSettle.RunSettles | internal/spooler/spooler.go:87-103 | in every run, cancelled or not, no write follows an upload before the settle time has been slept |
| FlashSettle.FlashWait | internal/spooler/spooler.go:24-101 | for every clock: a write after an upload's end starts at least 4400 ms after the upload's last write, to whatever printer |
| Interleaving.TaskShape | internal/printer/tcp.go:48-55 | every unit of work takes at most one mutex, first, gives it back last, and waits for nothing in between |
| Interleaving.StepOk | internal/spooler/spooler.go:55-64 | every step of every goroutine keeps ownership of mutexes, the spooler's sequential tasks and each endpoint's log |
| Interleaving.RunOk | internal/spooler/spooler.go:51-64 | so does every run in any interleaving |
| SharedPrinters.SendsAreAtomic | internal/printer/tcp.go:35-56 | at every moment the bytes at a printer are the contributions of whole sends in lock order plus a prefix of the payload of the send holding the lock |
| SharedPrinters.MutualExclusion | internal/cloud/writeconn.go:21-25 | two goroutines never hold the same mutex |
| SharedPrinters.NoRaces | internal/cloud/writeconn.go:21-25 | in every interleaving a goroutine about to dial or write a printer, write the websocket, use the logo cache or copy the printer list owns the mutex for it |
| SharedPrinters.EndpointPacing | internal/printer/tcp.go:48-54 | the pacing bound for everything any goroutines sent to one endpoint, without the extra term when all the sends served there succeed |
| SharedPrinters.PacedExactly | internal/printer/tcp.go:48-54 | the exact pacing condition for everything any goroutines sent to one endpoint |
| SharedPrinters.SpoolerTranscript | internal/spooler/spooler.go:55-64 | among the others the spooler does what a sequential run over the jobs taken does, and takes them in the order they were submitted; the jobs submitted and not taken are in the channel, never more than fit |
| SharedPrinters.AcksInOrder | internal/cloud/client.go:314-336 | the acks written so far begin the ones the jobs are due, in channel order |
| SharedPrinters.SettlesAmongOthers | internal/spooler/spooler.go:95-103 | the spooler keeps the flash wait in every interleaving |
| Progress.StepCosts | internal/spooler/spooler.go:55-118 | every step other than an arrival leaves less work |
| Progress.OwnerRuns | internal/printer/tcp.go:49-50 | the owner of a mutex can always take its next step |
| Progress.NoDeadlock | internal/spooler/spooler.go:51-65 | with work left some goroutine can move, even with the job channel full and every mutex taken |
| Progress.RunsEnd | internal/spooler/spooler.go:55-64 | a run without arrivals is no longer than the work there was |
| Progress.StuckMeansDone | internal/spooler/spooler.go:51-64 | a run that cannot go on has handled every submitted job, holds no mutex, and the spooler did exactly the sequential run over them |
| SystemRuns.EveryRun | internal/spooler/spooler.go:51-118 | after every run from the start: atomic sends, the exact pacing condition, sequential spooler and acks in order, a channel within its capacity, and no deadlock |
| SystemRuns.EveryRunEnds | internal/spooler/spooler.go:51-64 | from any point of a run, without arrivals only so many steps are possible, and once none is, all submitted jobs are handled |
| SharedLogos.SlotsCoherent | internal/spooler/spooler.go:86-114 | in every interleaved run in which only the spooler writes logos, between any two of its tasks, a cached slot holds the cached image after the sends its printer served if and only if the slot is not dirty |
| SharedLogos.ReceiptFinds | internal/spooler/spooler.go:86-109 | in every such run, when a job's receipt is due to take its printer's lock, the slot holds the job's image if and only if the job was not answered from a dirty cache entry |
| PrintedPaper.ReceiptsInARow | internal/escpos/render.go:28-52 | any number of clean receipts in a row print one after the other, each whole, and what follows is run from a plain printer |
| PrintedPaper.PaperInLockOrder | internal/printer/tcp.go:35-56 | in every reachable state, when the sends a printer served carry clean receipts and succeed, it has printed exactly those receipts in lock order and is running a part of the one that holds the lock |
| PrintedPaper.PaperWhenFree | internal/printer/tcp.go:48-55 | and while nobody holds the lock, the paper is exactly the receipts one after the other |
| Utf8.DecodeEncoded | internal/escpos/render.go:282-291 | decoding undoes encoding for every scalar value, in front of any text (section 3 of RFC 3629) |
| Utf8.EncodeDecoded | internal/escpos/render.go:282-291 | what decodes to a rune is that rune's encoding, so overlong forms and surrogates do not |
| Utf8.FirstIsEncoded | internal/escpos/render.go:282-291 | a text starts with a rune if and only if it starts with the encoding of that scalar value |
| CodePage858.ShownCode | internal/escpos/render.go:54-62 | the code page shows the rune that was encoded |
| CodePage858.CodeIs | internal/escpos/render.go:54-62 | the search through the code page gives, for every rune, what a separate table from runes to octets gives, or neither has one |
| CodePage858.GermanCodes | internal/escpos/render.go:54-62 | the octets of the umlauts, the sharp s and the euro sign |
| CodePage858.DecodeToValid | internal/escpos/render.go:59 | replacing invalid UTF-8 turns each run of invalid octets into one question mark and keeps every rune |
| CodePage858.EncodeShows | internal/escpos/render.go:55-56 | encoding succeeds exactly on texts of encodable runes, one octet per rune, line feeds and only line feeds becoming line feeds |
| CodePage858.EncodedLength | internal/escpos/render.go:54-62 | the output has at most one octet per rune or invalid octet, exactly that many if and only if all runes are in the code page and no invalid octets are adjacent, and none when a rune is missing |
| Cells.DecodeRow | internal/escpos/render.go:282-298 | four cells and three blanks decode to exactly 48 runes or invalid octets, though cells are cut by bytes |
| Cells.RowColumns | internal/escpos/render.go:16-22 | the columns of a row: 4, 17, 12 and 12 symbols, count and price to the right, product and extras to the left, one blank between any two |
| Cells.SpacesAre | internal/escpos/render.go:283 | white space is the 25 runes that Unicode calls so |
| Cells.CutDecodes | internal/escpos/render.go:284-286 | a cut valid text is some of its runes followed by one invalid octet for each octet left of the cut rune |
| Cells.RowWidth | internal/escpos/render.go:296-298 | any row is one line of at most 48 octets and one line feed; 48 exactly when its runes are encodable and no invalid octets are adjacent |
| Cells.RowOfTexts | internal/escpos/render.go:282-298 | whatever the texts, a row is 48 wide if and only if each cell prints what its cut leaves; a rune the code page lacks blanks the row unless it is cut off |
| Cells.RowOfProperTexts | internal/escpos/render.go:217-219 | for printable texts the row is 48 wide if and only if no cut leaves two or more octets of a rune |
| ItemRows.PriceCut | internal/escpos/render.go:235 | the price cell is cut badly exactly when the printed amount has nine characters |
| ItemRows.ItemRowOfAnyName | internal/escpos/render.go:293-298 | an item row is 48 wide if and only if what the cut leaves of the name prints and the amount does not have nine characters |
| ItemRows.ItemRowWidth | internal/escpos/render.go:293-298 | an item row with a printable name is 48 wide if and only if the cut of the name is clean and the amount does not have nine characters |
| ItemRows.HeaderWidth | internal/escpos/render.go:217-219 | the heading row encodes to exactly 48 octets |
| ItemRows.SqueezeWords | internal/escpos/render.go:283 | any number of blanks between two words becomes one, and blanks around them go |
| ItemRows.NarrowRow | internal/escpos/render.go:235 | one item at 123456.78 always gets a row that is too narrow, whatever its name |
| Money.ReadFixed2 | internal/escpos/render.go:235 | the printed amount reads back as the rounded number of cents |
| Money.Fixed2Shape | internal/escpos/render.go:235 | a minus sign exactly below zero, at least one digit, a point, two digits |
| Money.QuantityLaws | internal/escpos/render.go:230-232 | nothing costs nothing, one more unit costs the unit price more, a fraction of a unit is not charged, taking back costs minus as much |
| Money.SumIsBill | internal/escpos/render.go:223-233 | the total is the sum of whole quantities times unit prices over the items that are maps |
| Money.TotalClose | internal/escpos/render.go:223-238 | the printed total differs from the sum of the n printed prices by at most (n + 1) half cents, skipped items counting for nothing |
| Money.TotalAgrees | internal/escpos/render.go:223-238 | the printed total is the sum of the printed prices if and only if their roundings add up to less than half a cent, or to half a cent while the sum is even |
| Money.WholePricesAgree | internal/escpos/render.go:230-238 | with unit prices in whole cents the two always agree |
| Money.TotalCanDiffer | internal/escpos/render.go:238 | three items at 1.004, whatever their name, print a total one cent above the sum of their prices |
| EscPos.ExecCmds | internal/escpos/render.go:68-97 | running the bytes of any list of commands does what the commands mean and leaves what follows untouched |
| EscPos.SayPrints | internal/escpos/render.go:64-66 | an emitted text prints its visible lines in the current style |
| Receipts.AppendItemBlock | internal/escpos/render.go:293-310 | the buffer grows by a rule, the row, and one line for each extra with a name |
| Receipts.BuildOrderLike | internal/escpos/render.go:139-247 | no receipt is an error; otherwise the bytes are those of the order's command list for the kind and tenant given; ReceiptBytes.OrderBytes says which they are |
| ReceiptBytes.OrderBytes | internal/escpos/render.go:154-246 | those bytes octet by octet: head, one block for each item that is a map, the total in quantities times prices, footer, feed and cut |
| ReceiptBytes.ServiceBytes | internal/escpos/render.go:106-136 | the bytes of a service call, octet by octet |
| ReceiptBytes.TestBytes | internal/escpos/render.go:68-97 | the bytes of the test page, octet by octet |
| ReceiptBytes.MessageBytes | internal/escpos/render.go:28-52 | the bytes of each kind of message: an order under its own tenant name unless that is blank, the kitchen's number only for its kind |
| Receipts.ShortIdShape | internal/escpos/render.go:183-192 | an ASCII order id is shown as a hash sign and at most eight octets, none a dash or a small letter |
| Receipts.UndashedKeeps | internal/escpos/render.go:186 | octet by octet and in order, dashes go and all else stays |
| Receipts.CapitalOf | internal/escpos/render.go:190 | small letters become the capitals at the same place in the alphabet, nothing else changes |
| Receipts.TrimSpaceIs | internal/escpos/render.go:144 | blanks around a text are dropped, and nothing else |
| Receipts.BuildPosReceipt | internal/escpos/render.go:249-255 | raw bytes pass through, undecodable ones are an error, and without them the receipt is laid out like an order |
| Receipts.BuildLogoProvision | internal/escpos/render.go:257-266 | the bytes of the image, or of the prelude when there is no image; an error when neither decodes |
| Receipts.TotalCountsBlocks | internal/escpos/render.go:223-236 | the printed total is the sum of quantity times unit price over exactly the items that get a block; skipped elements add neither |
| Receipts.BuildServiceCall | internal/escpos/render.go:99-137 | the bytes are those of the service call's command list |
| Receipts.BuildTestPrint | internal/escpos/render.go:68-97 | the bytes are those of the test page's command list |
| Receipts.Render | internal/escpos/render.go:28-52 | each kind goes to its builder, the receipt's tenant name wins over the message's unless blank, an unknown kind is an error |
| ReceiptPaper.OrderPrints | internal/escpos/render.go:165-246 | the commands of an order print its styled lines and end plain, from any printer state |
| ReceiptPaper.RenderRoundTrip | internal/escpos/render.go:28-52 | a printer in any state that runs a rendered receipt of clean texts prints exactly its layout, feeds six, cuts, and ends left-aligned, not bold, normal size |
| ReceiptPaper.ReceiptsAreIndependent | internal/escpos/render.go:79-96 | two receipts in a row come out as each would alone from a fresh printer |
| ReceiptPaper.VisibleIsText | internal/escpos/render.go:54-66 | for an encodable text the paper shows the text, split at its line feeds |
| UpdateRequests.VersionScan | internal/updater/trigger.go:16-22 | a version is accepted if and only if it matches the pattern: three numbers, and possibly a suffix after a dash or a plus sign |
| UpdateRequests.UrlScan | internal/updater/trigger.go:15-28 | a link is accepted if and only if it matches the pattern: a file directly below a version of this repository's releases |
| UpdateRequests.AfterThreeNumbers | internal/updater/trigger.go:15-16 | after three numbers, what decides is the rest: a suffix for a version, and, below this repository's releases, a file name for a link |
| UpdateRequests.SuffixIs | internal/updater/trigger.go:16 | a suffix is a dash or a plus sign and at least one letter, digit, point or dash, the alphabets written out |
| UpdateRequests.FileIs | internal/updater/trigger.go:15 | a file name likewise, after a slash |
| UpdateRequests.ChecksumIs | internal/updater/trigger.go:17 | a checksum is 64 hexadecimal digits, the alphabets written out |
| UpdateMailbox.HandOff | internal/updater/trigger.go:51-60 | after every run each accepted request is in exactly one of waiting, in flight, superseded, finished, lost; none has two results; results are read in the order written; read <= written <= accepted |
| UpdateMailbox.WatchdogIsSafe | internal/updater/trigger.go:83-112 | the watchdog acts exactly on a request waiting for its time with no unread result, writes that request's first result, and never touches one in flight |
| UpdateMailbox.WatchdogWaits | internal/updater/trigger.go:84-102 | the watchdog leaves everything as it is if and only if no request waits, a result is unread, or the request is younger than the time given, 900 s by default |
| UpdateMailbox.YoungRequestWaits | internal/updater/trigger.go:88-102 | over runs: an accepted request waits, as accepted, while nothing replaces, takes or wipes it and no watchdog looks when it is that old |
| UpdateMailbox.WhoIsLost | deploy/updater/orderpy-bridge-updater.sh:16-31 | which step makes which request superseded, lost or in flight, and none other does |
| UpdateMailbox.ResultRead | internal/updater/trigger.go:64-80 | in every run a result is read if and only if it was written whole and the first later action that reads, replaces or wipes is one that reads |
| UpdateMailbox.ResultCanBeHidden | deploy/updater/orderpy-bridge-updater.sh:16-31 | a run in which a failure and then a success are written and only the success is read |
| UpdateMailbox.Runtime.HandleUpdateAction | internal/updater/trigger.go:14-61 | each failing check or file operation gives its reason, in this order; otherwise the trigger is the new request with all its fields, the requester cloud by default; a failure after the directory was made leaves only the directory |
| UpdateMailbox.Runtime.ConsumePendingUpdateResult | internal/updater/trigger.go:64-80 | removes the result; returns it if it parses, nothing otherwise |
| UpdateMailbox.Runtime.CheckWatchdog | internal/updater/trigger.go:83-112 | fires exactly when the request is overdue, with 900 s as the default; the result it writes is failed, updater_did_not_complete_in_time, without a version |
| UpdateMailbox.Runtime.PickUpTrigger | deploy/updater/orderpy-bridge-updater.sh:63-71 | the request moves from the trigger file to the updater, or only the directory is made |
| UpdateMailbox.Runtime.WriteUpdateResult | deploy/updater/orderpy-bridge-updater.sh:16-31 | the result file gets status, version and error of the request's result, unless the directory is gone or the write breaks off |
| InstallSwap.Host.Swap | deploy/updater/orderpy-bridge-updater.sh:141-193 | for every combination of outcomes the script goes through exactly the specified states of the two directories and the service and leaves the specified result and exit code |
| InstallSwap.CommandByCommand | deploy/updater/orderpy-bridge-updater.sh:141-193 | the state after each command of a swap that goes through, and of the two rollbacks |
| InstallSwap.NeverWithoutATree | deploy/updater/orderpy-bridge-updater.sh:141-193 | in every one of those states a whole tree is in INSTALL or OLD |
| InstallSwap.WithoutInstallation | deploy/updater/orderpy-bridge-updater.sh:154-166 | one of them has no INSTALL at all if and only if the backup is made |
| InstallSwap.Host.RestoreOld | deploy/updater/orderpy-bridge-updater.sh:144-150 | the states of the rollback, in order, and whether it gets through |
| InstallSwap.SuccessMeansNew | deploy/updater/orderpy-bridge-updater.sh:190-193 | exit 0 and the result success coincide, and mean the new tree is installed and running |
| InstallSwap.FailureMeansPrevious | deploy/updater/orderpy-bridge-updater.sh:154-188 | a reported failure leaves the previous tree in INSTALL and nothing in OLD, or the other way round exactly when the rollback's move failed |
| InstallSwap.ErrorNamesTheStep | deploy/updater/orderpy-bridge-updater.sh:156-187 | the error reported names the first of backup, move and start that failed |
| InstallSwap.NeverRunsAPart | deploy/updater/orderpy-bridge-updater.sh:141-193 | at no moment does the service run while a part of a tree is installed |
| InstallSwap.SilentExits | deploy/updater/orderpy-bridge-updater.sh:142-192 | a run ends without a result if and only if an unguarded command failed, a removal of the rollback failed, the result could not be written, or the runtime directory was removed by the stop or by a failed start |
| InstallSwap.LeftStopped | deploy/updater/orderpy-bridge-updater.sh:152-188 | exactly when the service runs at the end; after a failed backup only if its result was written and the restart worked |
| ClaimToken.RandomHex | internal/state/state.go:161-171 | the loop produces the hexadecimal form of the random bytes |
| ClaimToken.HexInjective | internal/state/state.go:161-171 | different random bytes give different tokens |
| ClaimToken.HexAt | internal/state/state.go:161-171 | octet k of the random bytes is digits 2k and 2k + 1 of the token, high one first, in the sixteen digits written out |
| ClaimToken.ClaimState.GetClaimToken | internal/state/state.go:25-35 | no token while claimed; otherwise the current one, drawn first if there was none |
| ClaimToken.ClaimState.RotateClaimToken | internal/state/state.go:37-45 | no token and no change while claimed; otherwise a new one |
| ClaimToken.ClaimState.InvalidateClaimToken | internal/state/state.go:47-52 | claimed, and no token |
| ClaimToken.ClaimState.UnpairBridge | internal/state/state.go:54-61 | not claimed, no tenant name, and a new token |
| ClaimToken.ClaimState.CheckToken | internal/state/state.go:105-112 | true exactly for the current token when there is one |
| ClaimToken.ClaimTokenLife | internal/cloud/client.go:171-179 | in every interleaving of HTTP and session steps: claimed means no token, a token is accepted only while it is the one issued last, and never twice |
| ClaimToken.InvalidationClaims | internal/state/state.go:47-52 | over runs: from an invalidation to the next unpairing the bridge is claimed, and no token is shown, issued or accepted |
| ClaimToken.UnpairedHasToken | internal/state/state.go:54-61 | after an unpairing it is not claimed and keeps the fresh token of 64 digits however often that is asked for |
| Lockout.VerifyState.RecordVerifyFailure | internal/state/state.go:114-121 | the fields follow the history extended by the failure |
| Lockout.VerifyState.IsLocked | internal/state/state.go:123-133 | answers by its first clock reading, resets by its second, and the fields follow the history |
| Lockout.CodeAgrees | internal/state/state.go:114-133 | the count is the failures since the last resetting check, and lockUntil is the latest end of a lock, both read off the history alone |
| Lockout.LockedIff | internal/state/state.go:123-133 | locked at t if and only if some failure less than 300 s earlier was at least the fifth since the last resetting check |
| Lockout.LockUntilGrows | internal/state/state.go:114-121 | lockUntil never moves back |
| Pairing.NeverBlocks | internal/cloud/client.go:150-170 | whenever the session sends a result, the reply channel is empty |
| Pairing.StepKeeps | internal/cloud/client.go:150-170 | every step keeps the placement, the counts and the channel order |
| Pairing.Rendezvous | internal/pairing/serve.go:104-116 | over every run and reconnect each request is in exactly one place and has at most one result, and requests taken = failed + answered + overwritten + dropped + pending |
| Pairing.ToldTheAnswer | internal/cloud/client.go:164-170 | over runs: whoever is pending when an answer arrives is told exactly that answer, once and for good |
| Pairing.ToldSendFailed | internal/cloud/client.go:150-156 | a request whose code cannot be sent is told send_failed, once and for good |
| Pairing.ToldNothing | internal/cloud/client.go:108-156 | a request displaced by the next code, or pending when the connection ends, is never told anything |
| Pairing.ToldOnlyThen | internal/cloud/client.go:150-170 | in no other step is anybody told anything |
| Pairing.OwnAnswer | internal/cloud/client.go:164-170 | when the cloud answers in order, the pending request is handed its own answer if and only if no earlier code is unanswered |
| Pairing.ResultsMatchRequests | internal/cloud/client.go:150-156 | in runs that never send a code while one is unanswered every answer reaches its own request and none is displaced |
| Pairing.CrossedAnswer | internal/cloud/client.go:150-170 | a run in which a late answer goes to the next client |
| Pairing.Bridge.HandlePair | internal/pairing/serve.go:104-110 | the request is queued under a fresh number, or busy if four are queued |
| Pairing.Bridge.ForwardRequest | internal/cloud/client.go:150-156 | the oldest request becomes the pending one, or is told send_failed, without blocking |
| Pairing.Bridge.HandlePairingResult | internal/cloud/client.go:164-170 | the pending request, if any, gets the result, without blocking |
| Pairing.Bridge.AwaitReply | internal/pairing/serve.go:111-116 | a handler answers with the only result its channel will ever hold, or with timeout |
| Pairing.Bridge.EndSession | internal/cloud/client.go:108 | the pending request is dropped with the session's local variable |
| Registry.RefinesMap | internal/cloud/client.go:206-231 | config_update messages act on the list as sequential override on a map (new entries only with id and address), keep ids distinct and never reorder |
| Registry.FilterIsLookup | internal/cloud/client.go:404-415 | with distinct ids, filtering by an id is looking it up |
| Registry.NamedOnce | internal/cloud/client.go:404-415 | no id selects two printers if and only if ids are distinct |
| Registry.PrinterList.Configure | internal/cloud/client.go:187-202 | the list becomes the message's entries, overwriting the same backing array when they fit |
| Registry.ParsedIs | internal/cloud/client.go:187-202 | element by element and in order, objects keep id, address and port, 9100 by default, and anything else is skipped |
| Registry.StartsOver | internal/cloud/client.go:187-202 | after a config message or an unpairing nothing that came before shows in the list |
| Registry.PrinterList.Put | internal/cloud/client.go:209-229 | one element updates the first entry of its id in place, or is appended |
| Registry.PrinterList.ConfigureMore | internal/cloud/client.go:206-231 | the elements of a message are applied in order, those that are not objects skipped |
| Registry.PrinterList.Snapshot | internal/cloud/client.go:349-351 | a fresh copy of the list |
| Registry.PrinterList.SnapshotThenUpdates | internal/cloud/client.go:349-352 | a snapshot keeps its contents whatever messages follow |
| Registry.FilterPrinters | internal/cloud/client.go:404-415 | all printers for an empty id, else those with the id, in order |
| CloudPrints.HandlePrintOrder | internal/cloud/client.go:338-370 | nothing without bytes, no report without a target, else one send per target and a report, printed exactly when the order has an id |
| CloudPrints.ReportRight | internal/cloud/client.go:358-369 | the report is right about an order with an id if and only if every send succeeded, that is, every target got all the bytes, and about one without an id if and only if some send failed |
| CloudPrints.PrintedWithoutPrinting | internal/cloud/client.go:363-367 | an order with an id whose printers all refuse the connection is reported as printed while no printer got a byte |
| CloudPrints.HandleServiceCall | internal/cloud/client.go:372-387 | one send per printer and no report |
| CloudPrints.HandlePrintTest | internal/cloud/client.go:389-402 | always one report, whose ok is true exactly when the whole test receipt was written |
| CloudPrints.OrderReachesItsPrinter | internal/cloud/client.go:338-370 | with distinct ids an order reaches the place registered under its name, whole when the send succeeds, and no other printer gets a byte of it |
| CloudPrints.OrderReachesAll | internal/cloud/client.go:338-370 | an order for no printer in particular reaches every printer whose place no other one has |
| CloudPrints.ServiceCallReachesAll | internal/cloud/client.go:372-387 | so does a service call |

## Left out

- Websocket dialling, framing and reconnect timing, TLS, HTTP routing and host checks, the pairing page: library calls and I/O.
- JSON and base64 decoding: messages and images come decoded, with "does not decode" as a case.
- Parsing and formatting of times, and upper-casing of order ids that are not ASCII: their results are inputs. Error texts: only their classes.
- Floating point: amounts are exact reals, so rounding of sums, NaN, infinities and integer overflow of quantities are not in the model.
- Raw bytes as logo writers: `pos_receipt` and `logo_provision` jobs and raw prints of the session can change a slot without the cache knowing, which the coherence results leave aside.
- golang.org/x/text is not part of this model; its code page table and its behaviour on errors are stated here as assumptions.
- A change that deletes the cache entry before an upload: the model follows the code as it is.
- The connection deadline of 120 s: it is one of the reasons a write can fail.
- The mutex of internal/state and the lock table's own synchronisation: nothing waits while holding them, so each use is one step.
- Retries of removals that fail: the removal of the trigger and result files in the bridge is taken to succeed.
- The updater's own copy of the request patterns, downloads, signature checks, and the early exits before the swap.
- systemd's own scheduling and restarts, and recovery of a swap that was killed in a later run.
- UpdateMailbox.Runtime.HandleUpdateAction: does not model interleavings inside one sequence of file operations, because the hand-off's guarantees are about whole sequences.
- Delivery of acks after a reconnect; the health report's contents; `SetUpdateStatus`; environment parsing; backoff.
