# solotto client core in Dafny

This project models the client library `solotto.js` of a Solana lottery program. The library builds, submits and watches lottery transactions and decodes lottery and ticket accounts. The model covers:

- **`LotteryNetwork.Tx`**: checks the option bag and fills in defaults, then adds the memo, the compute-unit limit and the compute-unit price to the caller's own instruction array.
  - It sizes the limit by a simulation (`Compute`) and sets the price from a corrected fee estimate (`Estimate`).
  - It returns the transaction as an object, as bytes or as base64 text.
- **`LotteryNetwork.Status`**: polls a signature until it is finalized or the wait times out.
- **`Lottery.DecodeLotteryState`**: a cursor-walking decoder for the lottery account, with presence-flagged optional fields.
- **The 104-byte ticket record** and the account filters that rely on its offsets (`GetTicket`, `GetTickets`).
- **`BundleTickets`**: builds a create and buy instruction pair per ticket.
- **The log scan of `WatchDraw`.**
- **The instruction data encoders**: discriminator bytes, `initializeData` and `lockData`.
- **The program-derived-address seed lists.**

Modules:

| file | module | contents |
|---|---|---|
| `primitives.dfy` | `Primitives` | bytes, 32-byte addresses, `Option`/`Result`, unsigned 64-bit little-endian encoding, `Buffer.slice`, `PublicKey` of a buffer |
| `jstext.dfy` | `JsText` | the JavaScript string built-ins the library uses: trimming, `String(n)`, `parseInt`, `indexOf`/`includes`, `replace` with a string pattern |
| `instructions.dfy` | `Instructions` | the instruction datatype `Ix`, the discriminators, the data encoders |
| `derivation.dfy` | `Derivation` | the seed lists of the three derived addresses; `findProgramAddressSync` is the function parameter `find` |
| `statedecoder.dfy` | `StateDecoder` | the ticket record, the lottery account layout as a function of the buffer, and `DecodeLotteryState` as a method that walks a cursor |
| `tickets.dfy` | `Tickets` | `getProgramAccounts` over a ledger, `GetTicket`, `GetTickets` with its loop and descending sort, `BundleTickets` with its loop |
| `network.dfy` | `Network` | the instruction array as a class `IxList` that `Tx` mutates in place; `Compute`, `Estimate` and `Tx` as methods, each proved equal to a specification function |
| `confirmation.dfy` | `Confirmation` | `Status` as a loop over the answers the node gives, proved equal to a step function `Tick` |
| `drawlog.dfy` | `DrawLog` | the notification scan of `WatchDraw` as nested loops, proved equal to `WinningNumber`, `HasFeeLine` and `Draws` |

The outside world enters as parameters:

- The RPC node, transaction compilation, serialization and base64 are the record `Network.Rpc` of functions.
  - `simulate` and `priorityFee` stand for `simulateTransaction` and for the `getPriorityFeeEstimate` answer after `parseInt`.
  - `serialize` and `base64` stand for the encoders.
- The account store is a sequence of `Tickets.Account`.
- The fresh receipt key pairs of `BundleTickets` come from `keygen: nat -> Keypair`.
- The answers to `getSignatureStatuses`, one per timer tick, are a sequence of `Confirmation.Observation`.
- The websocket notifications are a sequence of `DrawLog.Notification`.

Where the code and its description disagree, the model follows the code:

- **Winner address** (solotto.js:502-509). The `try/catch` around it never rescues a decode. Only the flag read can throw, and it throws only when the buffer ends there. The mandatory `isActive` read that follows then throws too, so the buffer fails to decode all the same (`StateDecoder.ShortTrailerFails`).
- **Release time** (solotto.js:519-526). A present release time decodes to 0, not to the stored value (see Findings). A missing or short tail decodes to null.
- **Timeout** (solotto.js:116-117). `Status` tests `start == max + 1`, so a `max` below 1 never times out (`Confirmation.NoTimeoutBelowOne`). With `max` equal to 1, a processed or confirmed answer still times out on that same tick, because the reset to 1 is followed by the increment (`Confirmation.ResetRestartsCount`).
- **Dead branch** (solotto.js:48-52). The `_cu_ == null` branch in `Tx` cannot be reached, because `Compute` returns a number or an error object. The model has no such branch.
- **Loose equality** (solotto.js:26, 28, 34). An empty signer list, a tolerance of 0, and an empty, blank or zero-valued memo string all compare `== false`, so each counts as absent.
- **Encode without serialize** (solotto.js:67-68). Asking to encode a transaction that was not serialized makes `Buffer.from` throw. `Tx` then rejects (`Network.TxResponse.Rejected`).

## Model

| member | source | states |
|---|---|---|
| Primitives.U64LE | solotto.js:550-551 | writeBigUInt64LE succeeds exactly for values in [0, 2^64) and gives 8 bytes whose little-endian value is the input |
| Primitives.U64LEInjective | solotto.js:550-551 | two values with the same 8-byte encoding are equal |
| Primitives.FromToLE | solotto.js:550-551 | reading back k little-endian bytes written from n < 256^k gives n |
| Primitives.ToFromLE | solotto.js:486 | writing back the value read from k bytes gives those bytes |
| Primitives.ReadU8 | solotto.js:478 | readUInt8 fails exactly past the end and otherwise returns the byte at the offset |
| Primitives.ReadU64LE | solotto.js:486 | readBigUInt64LE fails exactly when 8 bytes are not available; otherwise its value is a u64 whose encoding is those 8 bytes |
| Primitives.ShortFromLEIsU64 | solotto.js:408 | BN of at most eight little-endian bytes is a u64 |
| Primitives.Slice | solotto.js:505 | slice within bounds is the subsequence, and never longer than the requested range |
| Primitives.KeyFromBytes | solotto.js:483 | a 32-byte buffer makes the key with exactly those bytes |
| Primitives.AsciiBytes | solotto.js:552 | Buffer.from of an ASCII seed string has one byte per character, each its code |
| Instructions.DiscriminatorRoundTrip | solotto.js:10-17 | the six discriminators are 0..5, distinct, and decode back to their instruction; no other byte decodes |
| Instructions.TagOnlyData | solotto.js:251-255 | claim, buy, draw and expire data are one byte, the instruction's own discriminator |
| Instructions.InitializeData | solotto.js:589-595 | initializeData succeeds exactly when price and id are u64, and gives 17 bytes starting with discriminator 0 |
| Instructions.InitializeRoundTrip | solotto.js:589-595 | reading the u64s at offsets 1 and 9 of initializeData(price, id) gives back price and id |
| Instructions.InitializeParseThenEncode | solotto.js:589-595 | every 17-byte buffer starting with 0 is initializeData of the fields read from it |
| Instructions.LockData | solotto.js:704-709 | lockData succeeds exactly for a lock state in [0, 256) and gives the two bytes [4, lock] |
| Derivation.LotterySeeds | solotto.js:549-552 | the lottery seeds are "lottery", the authority's bytes and the 8-byte id, defined exactly for u64 ids |
| Derivation.LotterySeedsInjective | solotto.js:549-552 | different (authority, id) pairs give different lottery seed lists |
| Derivation.TicketSeedsInjective | solotto.js:554-565 | different (lottery, buyer, receipt) triples give different ticket seed lists |
| Derivation.SeedFamiliesDisjoint | solotto.js:549-568 | the three seed families start with different tags, so no lottery seed list equals a ticket or prize-pool one |
| Derivation.DerivationsSeparate | solotto.js:549-568 | when find keeps the lottery, ticket and prize-pool seed lists apart: the lottery address exists for a u64 id, equal ticket addresses (DeriveTicketPDA) mean equal (lottery, buyer, receipt) triples, and no two of the lottery, ticket and prize-pool (DerivePrizePoolPDA) addresses coincide |
| StateDecoder.EncodeTicket | solotto.js:178-183 | a ticket record is 104 bytes |
| StateDecoder.DecodeTicket | solotto.js:178-183 | TICKET_STATE.decode never throws and gives a well-formed record; on 104 bytes or more, the owner, lottery and receipt are the bytes at 0, 32 and 64, and the number is the u64 whose encoding is the bytes at 96 |
| StateDecoder.TruncatedTicketNumberIsZero | solotto.js:178-183 | a record cut off before byte 96 decodes with ticket number 0 |
| StateDecoder.TicketFieldOffsets | solotto.js:178-183 | owner sits at [0,32), lottery at [32,64) and the ticket number at [96,104) of the record |
| StateDecoder.TicketRoundTrip | solotto.js:178-183 | decoding an encoded ticket gives it back |
| StateDecoder.TicketDecodeThenEncode | solotto.js:178-183 | re-encoding a decoded 104-byte record gives the same bytes |
| StateDecoder.LotteryLayout | solotto.js:474-526 | every account the layout accepts is well formed (u64 fields, 32-byte keys) |
| StateDecoder.ReadHeader | solotto.js:482-493 | steps 1-4 succeed exactly when the buffer holds 56 bytes, and read the authority and the u64s at 32, 40 and 48 |
| StateDecoder.ReadWinnerTicket | solotto.js:494-499 | the winner-ticket option fails exactly when the flag or, with flag 1, its 8 bytes are missing; a flag other than 1 takes one byte and reads as absent |
| StateDecoder.ReadWinnerAddress | solotto.js:501-509 | the caught winner-address option: flag 1 reads a key from the next 32 bytes and moves 33; another flag moves 1; a missing flag leaves the cursor and gives null |
| StateDecoder.ReadTrailer | solotto.js:510-517 | isActive, the prize pool and drawInitiated are read at the cursor, and fail exactly when 10 bytes are not there |
| StateDecoder.ReadReleaseTime | solotto.js:518-526 | the caught release option: a flag other than 1 gives null, a full flag-1 option gives Number of the outer variable, a missing flag or payload leaves the variable as it was |
| StateDecoder.DecodeLotteryState | solotto.js:474-546 | the cursor-walking method, with fees defaulting to true, returns exactly the decode the layout function describes, errors included |
| StateDecoder.ShortHeaderFails | solotto.js:482-499 | a buffer that ends before the winner-ticket flag fails with a RangeError |
| StateDecoder.ShortTrailerFails | solotto.js:501-517 | a buffer that ends before the three fixed fields after the options fails, so the caught winner-address read never rescues a decode |
| StateDecoder.DecodedState | solotto.js:527-545 | the returned object: stored fields, Number(winner ticket) (0 when absent), isActive and drawInitiated as flag == 1, balance less 10% with fees, prize-pool and lottery addresses derived, release equal to the lottery address |
| StateDecoder.LotteryMandatoryFields | solotto.js:482-499 | authority at [0,32), id at 32, price at 40, total at 48, the winner-ticket flag at 56; a buffer of 56 bytes or fewer fails |
| StateDecoder.NonOneFlagIsAbsent | solotto.js:477-481 | a flag byte other than 1 decodes exactly as 0 would: absent, one byte consumed |
| StateDecoder.LayoutOfBody | solotto.js:474-526 | the layout reads back every stored field of an encoded account, whatever release tail follows |
| StateDecoder.LotteryLayoutRoundTrip | solotto.js:474-526 | the layout read of an encoded account is that account, release time included |
| StateDecoder.ReleaseTailOptional | solotto.js:518-526 | a missing, short or unflagged release tail decodes to a null release time, not an error |
| StateDecoder.DecodeLotteryRoundTrip | solotto.js:474-546 | the decode of an encoded account: its fields, 0 for an absent winning ticket, 0 for a present release time, 90% of the pool with fees, the derived addresses, release equal to the lottery address |
| StateDecoder.ReleaseTimeDiscarded | solotto.js:519-526 | a nonzero release time is in the layout but the decode reports 0 |
| StateDecoder.IntendedReleaseTimeRoundTrip | solotto.js:519-526 | the intended decode reports the stored release time and otherwise equals the decode as written |
| Tickets.ProgramAccounts | solotto.js:389-401 | getProgramAccounts returns at most the accounts there are |
| Tickets.ProgramAccountsExact | solotto.js:389-401 | the accounts returned are exactly those of the ledger that pass every filter |
| Tickets.ProgramAccountsFirst | solotto.js:389-402 | the first account returned is the first of the snapshot that passes every filter |
| Tickets.TicketFiltersExact | solotto.js:391-399 | a buffer passes GetTicket's filters exactly when it is a 104-byte ticket of that lottery with that number |
| Tickets.TicketListFiltersExact | solotto.js:432-435 | a buffer passes GetTickets' filters exactly when it is a 104-byte ticket of that lottery (and of that buyer when one is given) |
| Tickets.TicketMatchesExist | solotto.js:389-402 | GetTicket's query returns something exactly when some account holds a ticket of that lottery and number |
| Tickets.FirstTicketMatch | solotto.js:389-405 | the first account GetTicket's query returns is the first ticket of that lottery and number in the snapshot |
| Tickets.GetTicket | solotto.js:382-418 | succeeds exactly when id and number are u64 and a matching ticket account exists; the answer carries that number and the derived lottery address, and the owner, receipt and address of the first account in the snapshot holding a 104-byte ticket of that lottery and number |
| Tickets.Entries | solotto.js:439-451 | one ticket entry per account found, in order |
| Tickets.DecodeEntries | solotto.js:439-451 | the loop over the accounts found builds exactly their entries, in order |
| Tickets.Insert | solotto.js:452 | inserting into a descending list keeps it descending and adds exactly that entry |
| Tickets.SortDescending | solotto.js:452 | the sort gives a permutation ordered by non-increasing ticket number |
| Tickets.FilteredAreSelected | solotto.js:432-436 | every account the filters let through is a 104-byte ticket of the lottery (and buyer) |
| Tickets.SelectedEntries | solotto.js:439-451 | every entry decoded from those accounts belongs to the lottery (and buyer) |
| Tickets.GetTickets | solotto.js:425-462 | succeeds exactly for u64 ids; the tickets are a permutation of the decoded matching accounts, sorted non-increasing, all of that lottery (and buyer) |
| Tickets.BundleTickets | solotto.js:332-375 | succeeds exactly for u64 ids; for amount n gives 2n instructions and n signers, ticket k being the pair create-receipt / buy at 2k, 2k+1 with signer k its receipt |
| Tickets.BundleReceiptsSign | solotto.js:343-370 | the create instruction makes the receipt account; the buy instruction goes to the program with data [1], the buyer and the receipt as writable signers |
| Network.IxList.constructor | solotto.js:127 | a new array holds the given instructions |
| Network.IxList.Push | solotto.js:39 | push appends one instruction and keeps the rest |
| Network.IxList.Unshift | solotto.js:53 | unshift puts one instruction in front and keeps the rest |
| Network.Ceil | solotto.js:135 | Math.ceil: the least integer not below its argument |
| Network.ComputeOutcome | solotto.js:124-136 | an error record ("error", "simulation error", details, logs) exactly when the simulation of [price 10000, limit 1400000] + instructions reports an error; otherwise ceil(consumed * tolerance) |
| Network.Compute | solotto.js:124-136 | the method that copies the array, unshifts the limit and the price and simulates gives ComputeOutcome of the caller's instructions, and leaves the caller's array alone |
| Network.FeeCorrection | solotto.js:159-161 | the corrected fee is at least 10000; an estimate of 1 becomes 100000; other estimates below 10000 become 10000; the rest are kept |
| Network.FeeCorrectionIdempotent | solotto.js:159-161 | correcting a corrected fee changes nothing |
| Network.Estimate | solotto.js:137-163 | the method's fee is the correction of the estimate for a copy of the caller's instructions |
| Network.ResolveOptions | solotto.js:26-34 | each default: the given signers, with an empty or absent list meaning none; priority Low; tolerance absent or 0 means 1.1; serialize and encode only when exactly true; compute and fees unless false; the table as the one-element list [table], else none; the memo kept exactly when it is not loosely false |
| Network.ResolvedMemoIsNotFalse | solotto.js:34 | a memo kept by the defaults is never blank, and the memos "0", "-0.0" and "0x00" are dropped |
| Network.LooselyFalse | solotto.js:34 | a blank string is loosely false; a string whose first non-blank character cannot begin a zero numeral (not 0, ., + or -) is not |
| Network.UntrimmedLooselyFalse | solotto.js:34 | a string with no white space at either end is loosely false exactly when it is a decimal or prefixed numeral of value zero |
| Network.ZeroNumeralsAreLooselyFalse | solotto.js:34 | "0", "-0.0" and "0x00" are loosely false |
| Network.NonZeroNumeralsAreKept | solotto.js:34 | "0.5" and "0x10" are not loosely false, though they start with 0 |
| Network.OneAndWordFalseAreKept | solotto.js:34 | "1" and the word "false" are not loosely false |
| Network.Tx | solotto.js:22-74 | the method's response, calls and the caller's array afterwards are exactly TxOutcome of the array it was given |
| Network.SizeAndFinish | solotto.js:40-73 | from the compute step on, the method does what the specification does to the list with the memo |
| Network.AssembleAndFinish | solotto.js:55-73 | from the fee step on, the method does what the specification does to the sized list |
| Network.TxValidation | solotto.js:24-25 | a request without account or instructions gets an object with only the message, no status, no network call, the array untouched |
| Network.TxAssemblyOrder | solotto.js:39-57 | with compute, fees and a memo, the caller's array ends as [price(fee), limit(cu)] + caller + [memo], cu sized from the list with the memo and fee estimated for the list with the limit |
| Network.SizedThenPriced | solotto.js:40-57 | with compute and fees, the limit goes in front and then the price in front of it |
| Network.TxExtremeIsVeryHigh | solotto.js:37-57 | an Extreme priority is asked of the estimator as VeryHigh and never as Extreme |
| Network.TxSimulationError | solotto.js:42-47 | a failed simulation is returned as Compute's error object with the message overwritten and status error, after exactly the blockhash and simulation calls |
| Network.TxSucceeds | solotto.js:61-73 | a valid request whose simulation succeeds and that does not encode an unserialized transaction settles with status ok and message success |
| Network.AfterComputePrepends | solotto.js:55-58 | the fee step puts at most one instruction in front of the list and changes nothing else |
| Network.TxPrefix | solotto.js:39-57 | the caller's array afterwards is at most two instructions, then the caller's instructions, then the memo if any |
| Network.TxKeepsCallerInstructions | solotto.js:39-57 | Tx only adds to the caller's array: at most two in front, at most one behind, the caller's instructions in order between |
| Network.AliasingDemo | solotto.js:25-57 | Compute leaves the caller's empty array empty, while Tx with a memo leaves the memo in that same array |
| Confirmation.TimeoutMessage | solotto.js:118 | the timeout message ends with " seconds max wait reached", and parseInt of it gives back max * interval |
| Confirmation.ThirtyText | solotto.js:87-118 | String(10 * 3) is "30" |
| Confirmation.DefaultTimeoutMessage | solotto.js:87-118 | with the default max and interval the timeout message is "30 seconds max wait reached" |
| Confirmation.Resolve | solotto.js:110-118 | only the first resolve decides the promise |
| Confirmation.Tick | solotto.js:90-121 | each tick reads the status once |
| Confirmation.Run | solotto.js:90-121 | the poller reads at most once per answer, and nothing happens once the timer is cleared |
| Confirmation.Status | solotto.js:87-123 | the loop's outcome and its number of reads are those of the step function over the answers; max and interval default to 10 and 3 |
| Confirmation.RunAppend | solotto.js:90-121 | polling over a + b is polling over a, then over b |
| Confirmation.FirstResolutionWins | solotto.js:108-120 | once the promise is settled, later answers change neither the outcome nor the number of reads |
| Confirmation.ClearedIffSettled | solotto.js:108-120 | the timer is cleared exactly when the promise is settled |
| Confirmation.FinalizedSettles | solotto.js:108-115 | a finalized answer settles on that tick: "program error!" when err is set, "finalized" otherwise |
| Confirmation.ResetRestartsCount | solotto.js:101-120 | processed or confirmed reset the counter to 1 before the increment (2 afterwards, nothing resolved); with max 1 the same tick times out |
| Confirmation.QuietTimesOut | solotto.js:93-120 | from counter s, quiet answers time out after exactly max + 1 - s ticks with (max*int) + " seconds max wait reached" |
| Confirmation.TimeoutAtMax | solotto.js:116-120 | with no reset or finalized answer and max at least 1, the timeout comes on read number max |
| Confirmation.BareStatusTimesOut | solotto.js:87-123 | Status(sig) with its defaults, over quiet answers, times out on the tenth read with "30 seconds max wait reached" |
| Confirmation.NoTimeoutBelowOne | solotto.js:116-117 | with max below 1 the timeout never comes; only finalized settles |
| DrawLog.ScanStep | solotto.js:216-223 | one more line updates the number and the draw flag as the loop body does |
| DrawLog.FeeLineAppend | solotto.js:220-222 | lines plus one hold a fee line exactly when either part does |
| DrawLog.ClassifyLogs | solotto.js:214-223 | the scan's number is that of the last winning line (0 without one) and it is a draw exactly when some line holds the fee pattern |
| DrawLog.WatchNotifications | solotto.js:209-226 | the events emitted are exactly Draws of the notifications, in order |
| DrawLog.NoWinningLineIsZero | solotto.js:214-219 | without a winning line the number stays 0 |
| DrawLog.LastWinningLineWins | solotto.js:216-219 | the last winning line decides the number |
| DrawLog.WinningLineReadsBack | solotto.js:212-218 | a line "Program log: Winning ticket number: n" holds the pattern and gives back n |
| DrawLog.DrawsExact | solotto.js:209-226 | every draw notification gives its event, and every event comes from a draw notification with its signature and number |
| JsText.TrimStart | solotto.js:34 | the result is a suffix of the input that does not start with white space, and everything removed is white space |
| JsText.TrimEnd | solotto.js:34 | the result is a prefix of the input that does not end with white space, and everything removed is white space |
| JsText.NatText | solotto.js:118 | String of a natural number is one or more decimal digits |
| JsText.IntText | solotto.js:118 | String of an integer is not empty |
| JsText.DigitRun | solotto.js:218 | the digit run is a prefix of the input made only of digits of the radix, followed by a non-digit or the end |
| JsText.DigitRunStops | solotto.js:218 | a run of decimal digits followed by a non-digit is read exactly up to that character |
| JsText.ParseInt | solotto.js:218 | parseInt is NaN exactly when no digit follows the white space, the sign and the radix prefix |
| JsText.ParseIntText | solotto.js:218 | parseInt(String(n)) is n for every integer n |
| JsText.TextThenSuffix | solotto.js:118 | parseInt of String(n) followed by text that starts with neither a digit nor an x is n |
| JsText.IndexOf | solotto.js:217 | a found index is a position where the pattern occurs |
| JsText.IndexOfFirst | solotto.js:217 | indexOf gives the first occurrence, and -1 only when there is none |
| JsText.IncludesIff | solotto.js:217 | includes holds exactly when the pattern occurs somewhere |
| JsText.ReplaceFirst | solotto.js:218 | replace leaves a string without the pattern unchanged; otherwise, with k the first occurrence, it keeps the text before k, puts the replacement at k and keeps the text after the pattern |
| JsText.ReplacePrefix | solotto.js:218 | removing the pattern from a string that starts with it leaves the rest |

## Left out

- The network, as I/O, is modelled only as the oracle parameters above: `getLatestBlockhash`, `simulateTransaction`, the `getPriorityFeeEstimate` fetch, `getProgramAccounts`, `getAccountInfo` and `getMinimumBalanceForRentExemption`.
- `Send` (solotto.js:75-86) is a try/catch around `sendRawTransaction`, which is I/O.
- The websocket subscription of `WatchDraw` and its reconnect timer (solotto.js:188-242) are concurrency and I/O. Only the scan over the delivered notifications is modelled.
- `Status` runs on `setInterval` with asynchronous callbacks that could interleave. The model runs the ticks one after another.
- Foreign primitives are modelled only as parameters or left uninterpreted:
  - `findProgramAddressSync` (hashing and the curve check) is the parameter `find`;
  - `PublicKey` parsing and validation of strings, `bs58`, `BN` and `buffer-layout` are not modelled;
  - message compilation, signing (`_tx_.sign`), serialization and base64 are uninterpreted;
  - `createMemoInstruction` is the `Memo` instruction.
- The wrappers `ClaimTicket`, `BuyTickets`, `Initialize`, `RandomDraw`, `LockLottery` and `ClaimExpired` are not modelled beyond their data encoders. Their network sequencing adds nothing the model does not already cover.
- `solotto.d.ts` is not part of this model. It holds declarations only.
- Network.ComputeOutcome: the tolerance is a real and `consumed * tolerance` is exact; the rounding of floating-point multiplication is not modelled.
- StateDecoder.DecodedState: the `0.1` haircut is exact real arithmetic, not the floating-point result.
- StateDecoder.DecodeLotteryState: `Number` of a u64 is the exact integer, without precision loss above 2^53.
- Tickets.GetTicket: `Number` of the ticket number (solotto.js:408) is the exact integer, without precision loss above 2^53.
- Tickets.GetTickets: `Number` of each ticket number (solotto.js:447) is the exact integer, without precision loss above 2^53, so ties after rounding are not modelled.
- StateDecoder.DecodeTicket: a short buffer is decoded as `buffer-layout` blobs decode, by unchecked slices. `PublicKey` of a short blob is taken as the blob left-padded with zeros to 32 bytes, and `BN` of an empty blob as 0; the exceptions the real constructors may raise there are not modelled.
- Network.FeeCorrection: takes the estimate as an integer. `parseInt` returning NaN (solotto.js:159), which passes through both comparisons unchanged, is not modelled.
- Network.ResolveOptions: the option bag is typed. A memo or tolerance of another JavaScript type is not modelled, and neither are numerals that only underflow to 0, such as "1e-400". A memo is loosely false when it is blank or a decimal, hexadecimal, octal or binary numeral of value zero.
- Tickets.GetTickets: the in-place `Array.prototype.sort` is modelled as a sort of the sequence value. The contract fixes the order only up to equal ticket numbers, not the stable order of ties.
- Tickets.ProgramAccounts: the node is taken to return matching accounts in ledger order. `GetTicket` decodes the first of them.
- Tickets.BundleTickets: the rent-exempt minimum is one value for the whole loop. The source asks for it once per ticket.
- Confirmation.Status: when the answers run out before the promise settles, the outcome is None. The endless polling that would follow is not modelled.

## Findings

| source | as written | input that shows it | evidently intended | confidence | as-written member | corrected member |
|---|---|---|---|---|---|---|
| solotto.js:521-525 | the release-time reader returns `Number(releaseTime)` of the outer variable, which is still null inside the callback, so a present release time decodes to 0 | a lottery account whose release option is flag 1 followed by the u64 1700000000 | `Number(val)`, the timestamp just read | not executed | StateDecoder.ReleaseTimeDiscarded | StateDecoder.IntendedReleaseTimeRoundTrip |
