/**
 * Decoding of the lottery program's two account layouts: the 104-byte
 * ticket record (TICKET_STATE, solotto.js:178-183) and the lottery account
 * with its presence-flagged optional fields (DecodeLotteryState,
 * solotto.js:474-546).
 */
module StateDecoder {
  import opened Primitives
  import opened Derivation

  // ---------------------------------------------------------------------
  // Ticket accounts
  // ---------------------------------------------------------------------

  const TICKET_SIZE: nat := 104
  const OWNER_OFFSET: nat := 0
  const LOTTERY_OFFSET: nat := 32
  const RECEIPT_OFFSET: nat := 64
  const NUMBER_OFFSET: nat := 96

  /** The fields of TICKET_STATE, the ticket number already read as a u64. */
  datatype TicketRecord = TicketRecord(owner: Address, lottery: Address, ticketReceipt: Address, ticketNumber: nat)

  predicate WellFormedTicket(t: TicketRecord) {
    IsU64(t.ticketNumber)
  }

  /** The on-chain bytes of a ticket record: three keys and a u64, 104 bytes. */
  function EncodeTicket(t: TicketRecord): (d: seq<byte>)
    requires WellFormedTicket(t)
    ensures |d| == TICKET_SIZE
  {
    t.owner + t.lottery + t.ticketReceipt + U64LE(t.ticketNumber).value
  }

  /**
   * TICKET_STATE.decode with its blob fields, then PublicKey and BN of each
   * (solotto.js:6, 178-183, 404-408). A blob field is an unchecked slice:
   * a short buffer gives short fields, a key left-padded to 32 bytes and
   * the number of whatever bytes remain; bytes past 104 are ignored.
   */
  function DecodeTicket(d: seq<byte>): (t: TicketRecord)
    ensures WellFormedTicket(t)
    ensures |d| >= TICKET_SIZE ==>
      && t.owner == d[OWNER_OFFSET..OWNER_OFFSET + 32] && t.lottery == d[LOTTERY_OFFSET..LOTTERY_OFFSET + 32]
      && t.ticketReceipt == d[RECEIPT_OFFSET..RECEIPT_OFFSET + 32]
      && U64LE(t.ticketNumber) == Ok(d[NUMBER_OFFSET..NUMBER_OFFSET + 8])
  {
    var num := Slice(d, NUMBER_OFFSET, NUMBER_OFFSET + 8);
    ShortFromLEIsU64(num);
    Pow256Eight();
    ToFromLE(num);
    TicketRecord(KeyFromBytes(Slice(d, OWNER_OFFSET, OWNER_OFFSET + 32)),
                 KeyFromBytes(Slice(d, LOTTERY_OFFSET, LOTTERY_OFFSET + 32)),
                 KeyFromBytes(Slice(d, RECEIPT_OFFSET, RECEIPT_OFFSET + 32)),
                 FromLE(num))
  }

  /** A record cut off before the ticket number still decodes, with number 0. */
  lemma TruncatedTicketNumberIsZero(d: seq<byte>)
    requires |d| <= NUMBER_OFFSET
    ensures DecodeTicket(d).ticketNumber == 0
  {
  }

  /**
   * The layout puts the lottery key at offset 32 and the ticket number's
   * eight little-endian bytes at offset 96: exactly the offsets the memcmp
   * filters of GetTicket and GetTickets compare (solotto.js:391-399, 434-435).
   */
  lemma TicketFieldOffsets(t: TicketRecord)
    requires WellFormedTicket(t)
    ensures EncodeTicket(t)[OWNER_OFFSET..OWNER_OFFSET + 32] == t.owner
    ensures EncodeTicket(t)[LOTTERY_OFFSET..LOTTERY_OFFSET + 32] == t.lottery
    ensures EncodeTicket(t)[NUMBER_OFFSET..NUMBER_OFFSET + 8] == U64LE(t.ticketNumber).value
  {
    var d := EncodeTicket(t);
    assert d[..32] == t.owner;
    assert d[32..64] == t.lottery;
    assert d[96..104] == U64LE(t.ticketNumber).value;
  }

  lemma TicketRoundTrip(t: TicketRecord)
    requires WellFormedTicket(t)
    ensures DecodeTicket(EncodeTicket(t)) == t
  {
    var d := EncodeTicket(t);
    TicketFieldOffsets(t);
    assert d[64..96] == t.ticketReceipt;
    FromToLE(t.ticketNumber, 8);
  }

  /** Every ticket-sized buffer is the encoding of the record it decodes to. */
  lemma TicketDecodeThenEncode(d: seq<byte>)
    requires |d| == TICKET_SIZE
    ensures EncodeTicket(DecodeTicket(d)) == d
  {
    var t := DecodeTicket(d);
    assert U64LE(t.ticketNumber) == Ok(d[96..104]);
    assert d == d[0..32] + d[32..64] + d[64..96] + d[96..104];
  }

  // ---------------------------------------------------------------------
  // Lottery accounts
  // ---------------------------------------------------------------------

  /** Offset of the presence flag of the winning ticket number. */
  const WINNER_FLAG_OFFSET: nat := 56

  /** The fields of a lottery account as the program stores them. */
  datatype LotteryAccount = LotteryAccount(
    authority: Address,
    lotteryId: nat,
    ticketPrice: nat,
    totalTickets: nat,
    winnerTicket: Option<nat>,
    winnerAddress: Option<Address>,
    isActive: bool,
    prizePool: nat,
    drawInitiated: bool,
    releaseTime: Option<nat>)

  /** What DecodeLotteryState returns to its caller. */
  datatype LotteryState = LotteryState(
    authority: Address,
    lotteryId: int,
    ticketPrice: int,
    totalTickets: int,
    winnerTicketNumber: int,
    winnerAddress: Option<Address>,
    isActive: bool,
    prizePoolBalance: real,
    drawInitiated: bool,
    prizePoolAddress: Address,
    lotteryAddress: Address,
    release: Address,
    releaseTime: Option<int>)

  predicate WellFormedLottery(a: LotteryAccount) {
    && IsU64(a.lotteryId) && IsU64(a.ticketPrice) && IsU64(a.totalTickets) && IsU64(a.prizePool)
    && (a.winnerTicket.Some? ==> IsU64(a.winnerTicket.value))
    && (a.releaseTime.Some? ==> IsU64(a.releaseTime.value))
  }

  function U64At(buf: seq<byte>, offset: nat): (n: nat)
    requires offset + 8 <= |buf|
    ensures IsU64(n) && ReadU64LE(buf, offset) == Some(n)
  {
    ReadU64LE(buf, offset).value
  }

  /** Number(x) of a value that is either a number or null: null becomes 0. */
  function Number(x: Option<int>): int {
    match x
    case Some(v) => v
    case None => 0
  }

  function Flag(b: bool): byte {
    if b then 1 else 0
  }

  function OptionU64(o: Option<nat>): seq<byte>
    requires o.Some? ==> IsU64(o.value)
  {
    match o
    case None => [0]
    case Some(v) => [1] + U64LE(v).value
  }

  function OptionKey(o: Option<Address>): seq<byte> {
    match o
    case None => [0]
    case Some(k) => [1] + k
  }

  /** The four mandatory fields: 56 bytes. */
  function EncodeHeader(a: LotteryAccount): (h: seq<byte>)
    requires WellFormedLottery(a)
    ensures |h| == 56
  {
    a.authority + U64LE(a.lotteryId).value + U64LE(a.ticketPrice).value + U64LE(a.totalTickets).value
  }

  /** is_active, prize_pool and draw_initiated: 10 bytes. */
  function EncodeTrailer(a: LotteryAccount): (t: seq<byte>)
    requires WellFormedLottery(a)
    ensures |t| == 10
  {
    [Flag(a.isActive)] + U64LE(a.prizePool).value + [Flag(a.drawInitiated)]
  }

  /** Everything the program writes before the optional release timestamp. */
  function EncodeLotteryBody(a: LotteryAccount): seq<byte>
    requires WellFormedLottery(a)
  {
    EncodeHeader(a) + (OptionU64(a.winnerTicket) + OptionKey(a.winnerAddress)) + EncodeTrailer(a)
  }

  /** A lottery account as the program writes it, each option a flag byte and its payload. */
  function EncodeLottery(a: LotteryAccount): seq<byte>
    requires WellFormedLottery(a)
  {
    EncodeLotteryBody(a) + OptionU64(a.releaseTime)
  }

  /** Offset just past the winning-ticket option. */
  function AfterWinnerTicket(buf: seq<byte>): nat
    requires |buf| > WINNER_FLAG_OFFSET
  {
    if buf[WINNER_FLAG_OFFSET] == 1 then 65 else 57
  }

  /**
   * Offset just past the winner-address option. A flag that cannot be read
   * leaves the offset where it was: the exception is caught before the
   * cursor moves.
   */
  function AfterWinnerAddress(buf: seq<byte>, a: nat): nat {
    if a < |buf| then (if buf[a] == 1 then a + 33 else a + 1) else a
  }

  /**
   * The lottery layout, stated by offsets rather than by a moving cursor:
   * authority at [0,32), id at 32, price at 40, total at 48, the winner
   * ticket flag at 56, then the two options, three fixed fields and the
   * release option. Reads of mandatory fields fail the decode; the release
   * option is absent when its flag or payload is missing.
   */
  function LotteryLayout(buf: seq<byte>): (r: Result<LotteryAccount>)
    ensures r.Ok? ==> WellFormedLottery(r.value)
  {
    if |buf| <= WINNER_FLAG_OFFSET then Err("RangeError: out of range")
    else
      var a := AfterWinnerTicket(buf);
      var b := AfterWinnerAddress(buf, a);
      if |buf| < b + 10 then Err("RangeError: out of range")
      else
        var c := b + 10;
        Ok(LotteryAccount(
          buf[0..32], U64At(buf, 32), U64At(buf, 40), U64At(buf, 48),
          if buf[WINNER_FLAG_OFFSET] == 1 then Some(U64At(buf, 57)) else None,
          if a < |buf| && buf[a] == 1 then Some(buf[a + 1..a + 33]) else None,
          buf[b] == 1, U64At(buf, b + 1), buf[b + 9] == 1,
          if c + 9 <= |buf| && buf[c] == 1 then Some(U64At(buf, c + 1)) else None))
  }

  /**
   * What DecodeLotteryState makes of the stored fields: an absent winning
   * ticket becomes Number(null) = 0; a present release time becomes
   * Number(releaseTime) of the outer variable, still null at that point,
   * so 0; the balance loses 10% when fees is set; both derived addresses
   * are recomputed, and release repeats the lottery address.
   */
  function Present(a: LotteryAccount, fees: bool, find: Finder, program: Address): LotteryState
    requires IsU64(a.lotteryId)
  {
    var pool := a.prizePool as real;
    var lottery := DeriveLotteryPda(find, program, a.authority, a.lotteryId).value.address;
    LotteryState(
      a.authority, a.lotteryId, a.ticketPrice, a.totalTickets,
      Number(if a.winnerTicket.Some? then Some(a.winnerTicket.value) else None),
      a.winnerAddress, a.isActive,
      if fees then pool - pool * 0.1 else pool,
      a.drawInitiated,
      DerivePrizePoolPda(find, program).address,
      lottery, lottery,
      if a.releaseTime.Some? then Some(Number(None)) else None)
  }

  function DecodeLottery(buf: seq<byte>, fees: bool, find: Finder, program: Address): Result<LotteryState> {
    match LotteryLayout(buf)
    case Err(e) => Err(e)
    case Ok(a) => Ok(Present(a, fees, find, program))
  }

  /**
   * readOption with the u64 reader of the winning ticket number
   * (solotto.js:477-481, 495-499): the flag byte, then eight bytes when the
   * flag is 1. No try surrounds it, so a failed read fails the decode (None).
   */
  method ReadWinnerTicket(buffer: seq<byte>, offset: nat) returns (r: Option<(Option<nat>, nat)>)
    ensures r.Some? <==> offset < |buffer| && (buffer[offset] == 1 ==> offset + 9 <= |buffer|)
    ensures r.Some? ==> r.value.1 == (if buffer[offset] == 1 then offset + 9 else offset + 1)
    ensures r.Some? ==> r.value.0 == (if buffer[offset] == 1 then ReadU64LE(buffer, offset + 1) else None)
  {
    var cursor := offset;
    var hasValue := ReadU8(buffer, cursor);
    if hasValue.None? { return None; }
    cursor := cursor + 1;
    if hasValue.value != 1 { return Some((None, cursor)); }
    var val := ReadU64LE(buffer, cursor);
    if val.None? { return None; }
    cursor := cursor + 8;
    return Some((Some(val.value), cursor));
  }

  /**
   * readOption with the key reader, inside try/catch (solotto.js:502-509).
   * Only the flag read can throw, before the cursor moves; slice clamps, so
   * a short payload still makes a key, left-padded.
   */
  method ReadWinnerAddress(buffer: seq<byte>, offset: nat) returns (value: Option<Address>, next: nat)
    ensures next == AfterWinnerAddress(buffer, offset)
    ensures value == (if offset < |buffer| && buffer[offset] == 1
                      then Some(KeyFromBytes(Slice(buffer, offset + 1, offset + 33))) else None)
  {
    value, next := None, offset;
    var hasValue := ReadU8(buffer, next);
    if hasValue.Some? {
      next := next + 1;
      if hasValue.value == 1 {
        var val := Slice(buffer, next, next + 32);
        next := next + 32;
        value := Some(KeyFromBytes(val));
      }
    }
  }

  /**
   * readOption with the release-time reader, inside try/catch
   * (solotto.js:519-526). The reader returns Number(releaseTime) of the outer
   * variable, passed here as `current`; a throw leaves `current` in place.
   */
  method ReadReleaseTime(buffer: seq<byte>, offset: nat, current: Option<int>) returns (value: Option<int>)
    ensures offset < |buffer| && buffer[offset] != 1 ==> value == None
    ensures offset < |buffer| && buffer[offset] == 1 && offset + 9 <= |buffer| ==> value == Some(Number(current))
    ensures offset >= |buffer| || (buffer[offset] == 1 && offset + 9 > |buffer|) ==> value == current
  {
    value := current;
    var cursor := offset;
    var hasValue := ReadU8(buffer, cursor);
    if hasValue.Some? {
      cursor := cursor + 1;
      if hasValue.value != 1 {
        value := None;
      } else {
        var val := ReadU64LE(buffer, cursor);
        if val.Some? {
          cursor := cursor + 8;
          value := Some(Number(current));
        }
      }
    }
  }

  /** A buffer that ends before the winner-ticket flag fails to decode. */
  lemma ShortHeaderFails(buf: seq<byte>, fees: bool, find: Finder, program: Address)
    requires |buf| <= WINNER_FLAG_OFFSET
    ensures DecodeLottery(buf, fees, find, program) == Err("RangeError: out of range")
  {
  }

  /** A buffer that ends inside the three fixed fields after the options fails to decode. */
  lemma ShortTrailerFails(buf: seq<byte>, a0: nat, b: nat, fees: bool, find: Finder, program: Address)
    requires |buf| > WINNER_FLAG_OFFSET && AfterWinnerTicket(buf) == a0
    requires AfterWinnerAddress(buf, a0) == b && |buf| < b + 10
    ensures DecodeLottery(buf, fees, find, program) == Err("RangeError: out of range")
  {
  }

  /** The state DecodeLotteryState assembles, once each field's offset is known. */
  lemma DecodedState(buf: seq<byte>, a0: nat, b: nat, fees: bool, find: Finder, program: Address,
                     winnerTicket: Option<int>, winnerAddress: Option<Address>, releaseTime: Option<int>)
    requires |buf| > WINNER_FLAG_OFFSET && AfterWinnerTicket(buf) == a0
    requires AfterWinnerAddress(buf, a0) == b && b + 10 <= |buf|
    requires winnerTicket == (if buf[WINNER_FLAG_OFFSET] == 1 then Some(U64At(buf, 57)) else None)
    requires winnerAddress == (if a0 < |buf| && buf[a0] == 1 then Some(buf[a0 + 1..a0 + 33]) else None)
    requires releaseTime == (if b + 19 <= |buf| && buf[b + 10] == 1 then Some(0) else None)
    ensures var pool := U64At(buf, b + 1) as real;
      var lottery := DeriveLotteryPda(find, program, buf[0..32], U64At(buf, 32)).value.address;
      DecodeLottery(buf, fees, find, program) == Ok(LotteryState(
        buf[0..32], U64At(buf, 32), U64At(buf, 40), U64At(buf, 48),
        Number(winnerTicket), winnerAddress, buf[b] == 1,
        if fees then pool - pool * 0.1 else pool, buf[b + 9] == 1,
        DerivePrizePoolPda(find, program).address, lottery, lottery, releaseTime))
  {
    LayoutAt(buf, a0, b);
    if b + 10 < |buf| { assert buf[b + 10..][0] == buf[b + 10]; }
  }

  /**
   * Steps 1-4 of DecodeLotteryState (solotto.js:482-493): the authority and
   * three u64 fields at offsets 0, 32, 40 and 48; a short buffer makes
   * readBigUInt64LE throw (None).
   */
  method ReadHeader(buffer: seq<byte>) returns (r: Option<(Address, nat, nat, nat)>)
    ensures r.Some? <==> |buffer| >= WINNER_FLAG_OFFSET
    ensures r.Some? ==> r.value == (buffer[0..32], U64At(buffer, 32), U64At(buffer, 40), U64At(buffer, 48))
  {
    var offset: nat := 0;
    var auth := KeyFromBytes(Slice(buffer, offset, offset + 32));
    offset := offset + 32;
    var lotteryId := ReadU64LE(buffer, offset);
    if lotteryId.None? { return None; }
    offset := offset + 8;
    var ticketPrice := ReadU64LE(buffer, offset);
    if ticketPrice.None? { return None; }
    offset := offset + 8;
    var totalTickets := ReadU64LE(buffer, offset);
    if totalTickets.None? { return None; }
    assert auth == buffer[0..32];
    return Some((auth, lotteryId.value, ticketPrice.value, totalTickets.value));
  }

  /**
   * Steps 7-8 of DecodeLotteryState (solotto.js:511-518): is_active,
   * prize_pool and draw_initiated from the cursor on; none is guarded.
   */
  method ReadTrailer(buffer: seq<byte>, offset: nat) returns (r: Option<(bool, nat, bool)>)
    ensures r.Some? <==> offset + 10 <= |buffer|
    ensures r.Some? ==> r.value == (buffer[offset] == 1, U64At(buffer, offset + 1), buffer[offset + 9] == 1)
  {
    var cursor := offset;
    var isActive := ReadU8(buffer, cursor);
    if isActive.None? { return None; }
    cursor := cursor + 1;
    var prizePool := ReadU64LE(buffer, cursor);
    if prizePool.None? { return None; }
    cursor := cursor + 8;
    var drawInitiated := ReadU8(buffer, cursor);
    if drawInitiated.None? { return None; }
    return Some((isActive.value == 1, prizePool.value, drawInitiated.value == 1));
  }

  /**
   * DecodeLotteryState (solotto.js:474-546): walks the buffer with a cursor.
   * A read past the end of a mandatory field fails the decode; reads inside
   * the two try blocks that fail leave the field null. As in the source,
   * fees defaults to true.
   */
  method DecodeLotteryState(buffer: seq<byte>, find: Finder, program: Address, fees: bool := true)
    returns (r: Result<LotteryState>)
    ensures r == DecodeLottery(buffer, fees, find, program)
  {
    // 1-4. authority, lottery id, ticket price, total tickets
    var header := ReadHeader(buffer);
    if header.None? { ShortHeaderFails(buffer, fees, find, program); return Err("RangeError: out of range"); }
    var (auth, lotteryId, ticketPrice, totalTickets) := header.value;
    var offset: nat := 56;
    // 5. winner ticket number
    var ticketOption := ReadWinnerTicket(buffer, offset);
    if ticketOption.None? {
      if |buffer| > WINNER_FLAG_OFFSET { ShortTrailerFails(buffer, 65, 65, fees, find, program); }
      else { ShortHeaderFails(buffer, fees, find, program); }
      return Err("RangeError: out of range");
    }
    var winnerTicketNumber: Option<int> := match ticketOption.value.0 case Some(v) => Some(v) case None => None;
    offset := ticketOption.value.1;
    ghost var a0 := offset;
    // 6. winner address
    var winnerAddress;
    winnerAddress, offset := ReadWinnerAddress(buffer, offset);
    ghost var b := offset;
    // 7-8. is_active, prize_pool, draw_initiated
    var trailer := ReadTrailer(buffer, offset);
    if trailer.None? { ShortTrailerFails(buffer, a0, b, fees, find, program); return Err("RangeError: out of range"); }
    var (isActive, prizePool, drawInitiated) := trailer.value;
    offset := offset + 10;
    // 9. release time
    var releaseTime: Option<int> := None;
    releaseTime := ReadReleaseTime(buffer, offset, releaseTime);
    var prizePoolAddress := DerivePrizePoolPda(find, program);
    var lotteryAddress := DeriveLotteryPda(find, program, auth, lotteryId).value;
    var pool := prizePool as real;
    var prizePoolBalance := pool;
    if fees { prizePoolBalance := pool - pool * 0.1; }
    DecodedState(buffer, a0, b, fees, find, program, winnerTicketNumber, winnerAddress, releaseTime);
    r := Ok(LotteryState(
      auth, lotteryId, ticketPrice, totalTickets,
      Number(winnerTicketNumber), winnerAddress, isActive,
      prizePoolBalance, drawInitiated,
      prizePoolAddress.address, lotteryAddress.address, lotteryAddress.address,
      releaseTime));
  }

  // ---------------------------------------------------------------------
  // Properties of the lottery layout
  // ---------------------------------------------------------------------

  /** The release option a tail of the buffer denotes, read as intended. */
  function ReleaseOf(tail: seq<byte>): Option<nat> {
    if |tail| >= 9 && tail[0] == 1 then Some(FromLE(tail[1..9])) else None
  }

  /** The mandatory prefix sits at fixed offsets; a buffer too short for it never decodes. */
  lemma LotteryMandatoryFields(buf: seq<byte>)
    ensures |buf| <= WINNER_FLAG_OFFSET ==> LotteryLayout(buf).Err?
    ensures LotteryLayout(buf).Ok? ==>
      var a := LotteryLayout(buf).value;
      && a.authority == buf[0..32]
      && ReadU64LE(buf, 32) == Some(a.lotteryId)
      && ReadU64LE(buf, 40) == Some(a.ticketPrice)
      && ReadU64LE(buf, 48) == Some(a.totalTickets)
      && (a.winnerTicket.Some? <==> buf[WINNER_FLAG_OFFSET] == 1)
  {
  }

  /**
   * A winner-ticket flag other than 1 means absent and takes one byte: the
   * buffer decodes exactly as it would with a 0 there.
   */
  lemma NonOneFlagIsAbsent(buf: seq<byte>)
    requires |buf| > WINNER_FLAG_OFFSET && buf[WINNER_FLAG_OFFSET] != 1
    ensures LotteryLayout(buf) == LotteryLayout(buf[WINNER_FLAG_OFFSET := 0])
    ensures LotteryLayout(buf).Ok? ==> LotteryLayout(buf).value.winnerTicket == None
  {
    var buf0 := buf[WINNER_FLAG_OFFSET := 0];
    assert buf0[0..32] == buf[0..32];
    assert forall i :: 0 <= i < |buf| && i != WINNER_FLAG_OFFSET ==> buf0[i] == buf[i];
    if LotteryLayout(buf).Ok? {
      var b := AfterWinnerAddress(buf, 57);
      assert buf0[32..40] == buf[32..40];
      assert buf0[40..48] == buf[40..48];
      assert buf0[48..56] == buf[48..56];
      assert buf0[b + 1..b + 9] == buf[b + 1..b + 9];
      if 57 < |buf| && buf[57] == 1 {
        assert buf0[58..90] == buf[58..90];
      }
      if b + 19 <= |buf| {
        assert buf0[b + 11..b + 19] == buf[b + 11..b + 19];
      }
    }
  }

  lemma SliceLeft(x: seq<byte>, y: seq<byte>, i: nat, j: nat)
    requires i <= j <= |x|
    ensures (x + y)[i..j] == x[i..j]
  {
  }

  lemma SliceRight(x: seq<byte>, y: seq<byte>, i: nat, j: nat)
    requires |x| <= i <= j <= |x| + |y|
    ensures (x + y)[i..j] == y[i - |x|..j - |x|]
  {
  }

  /**
   * Where each part of a body assembled from its byte strings lands: the four
   * header fields, the two options, the three trailer fields and the tail.
   */
  lemma FieldsShape(auth: seq<byte>, id: seq<byte>, price: seq<byte>, total: seq<byte>,
                    wt: seq<byte>, wa: seq<byte>, active: byte, pool: seq<byte>, draw: byte, tail: seq<byte>)
    requires |auth| == 32 && |id| == 8 && |price| == 8 && |total| == 8 && |pool| == 8
    ensures var buf := auth + id + price + total + (wt + wa) + ([active] + pool + [draw]) + tail;
      var a0 := 56 + |wt|;
      var b := a0 + |wa|;
      && |buf| == b + 10 + |tail|
      && buf[0..32] == auth && buf[32..40] == id && buf[40..48] == price && buf[48..56] == total
      && buf[56..a0] == wt && buf[a0..b] == wa
      && buf[b] == active && buf[b + 1..b + 9] == pool && buf[b + 9] == draw
      && buf[b + 10..] == tail
  {
    var h := auth + id + price + total;
    var tr := [active] + pool + [draw];
    var body := h + (wt + wa) + tr;
    var buf := body + tail;
    var a0 := 56 + |wt|;
    var b := a0 + |wa|;
    // header
    var h1, h2 := auth + id, auth + id + price;
    SliceLeft(body, tail, 0, 56);
    SliceLeft(h + (wt + wa), tr, 0, 56);
    SliceLeft(h, wt + wa, 0, 56);
    assert buf[0..56] == h;
    SliceLeft(h2, total, 0, 48);
    SliceRight(h2, total, 48, 56);
    SliceLeft(h1, price, 0, 40);
    SliceRight(h1, price, 40, 48);
    SliceLeft(auth, id, 0, 32);
    SliceRight(auth, id, 32, 40);
    assert buf[0..48] == h2 by { assert buf[0..48] == buf[0..56][0..48]; }
    assert buf[0..40] == h1 by { assert buf[0..40] == buf[0..56][0..40]; }
    assert buf[0..32] == auth by { assert buf[0..32] == buf[0..56][0..32]; }
    assert buf[32..40] == id by { assert buf[32..40] == buf[0..40][32..40]; }
    assert buf[40..48] == price by { assert buf[40..48] == buf[0..48][40..48]; }
    assert buf[48..56] == total by { assert buf[48..56] == buf[0..56][48..56]; }
    // options
    SliceLeft(body, tail, 56, b);
    SliceLeft(h + (wt + wa), tr, 56, b);
    SliceRight(h, wt + wa, 56, b);
    assert buf[56..b] == wt + wa;
    assert buf[56..a0] == wt by { assert buf[56..a0] == buf[56..b][0..|wt|]; }
    assert buf[a0..b] == wa by { assert buf[a0..b] == buf[56..b][|wt|..]; }
    // trailer and tail
    SliceLeft(body, tail, b, b + 10);
    SliceRight(h + (wt + wa), tr, b, b + 10);
    assert buf[b..b + 10] == tr;
    assert buf[b + 1..b + 9] == pool by { assert buf[b + 1..b + 9] == tr[1..9]; }
  }

  /** Where each field of an account's body lands in `buf`, with `tail` after it. */
  predicate Shaped(buf: seq<byte>, a: LotteryAccount, tail: seq<byte>)
    requires WellFormedLottery(a)
  {
    var a0 := 56 + |OptionU64(a.winnerTicket)|;
    var b := a0 + |OptionKey(a.winnerAddress)|;
    && |buf| == b + 10 + |tail|
    && buf[0..32] == a.authority
    && buf[32..40] == U64LE(a.lotteryId).value
    && buf[40..48] == U64LE(a.ticketPrice).value
    && buf[48..56] == U64LE(a.totalTickets).value
    && buf[56..a0] == OptionU64(a.winnerTicket)
    && buf[a0..b] == OptionKey(a.winnerAddress)
    && buf[b] == Flag(a.isActive)
    && buf[b + 1..b + 9] == U64LE(a.prizePool).value
    && buf[b + 9] == Flag(a.drawInitiated)
    && buf[b + 10..] == tail
  }

  lemma BodyShape(a: LotteryAccount, tail: seq<byte>)
    requires WellFormedLottery(a)
    ensures Shaped(EncodeLotteryBody(a) + tail, a, tail)
  {
    FieldsShape(a.authority, U64LE(a.lotteryId).value, U64LE(a.ticketPrice).value, U64LE(a.totalTickets).value,
                OptionU64(a.winnerTicket), OptionKey(a.winnerAddress),
                Flag(a.isActive), U64LE(a.prizePool).value, Flag(a.drawInitiated), tail);
  }

  /** A u64 field read where its eight encoded bytes sit gives the value back. */
  lemma U64AtEncoded(buf: seq<byte>, offset: nat, v: nat)
    requires IsU64(v) && offset + 8 <= |buf| && buf[offset..offset + 8] == U64LE(v).value
    ensures U64At(buf, offset) == v
  {
    FromToLE(v, 8);
  }

  /** LotteryLayout once the two option offsets are known. */
  lemma LayoutAt(buf: seq<byte>, a0: nat, b: nat)
    requires |buf| > WINNER_FLAG_OFFSET && AfterWinnerTicket(buf) == a0
    requires AfterWinnerAddress(buf, a0) == b && b + 10 <= |buf|
    ensures LotteryLayout(buf) == Ok(LotteryAccount(
      buf[0..32], U64At(buf, 32), U64At(buf, 40), U64At(buf, 48),
      if buf[WINNER_FLAG_OFFSET] == 1 then Some(U64At(buf, 57)) else None,
      if a0 < |buf| && buf[a0] == 1 then Some(buf[a0 + 1..a0 + 33]) else None,
      buf[b] == 1, U64At(buf, b + 1), buf[b + 9] == 1, ReleaseOf(buf[b + 10..])))
  {
    var c := b + 10;
    if c + 9 <= |buf| {
      assert buf[c..][1..9] == buf[c + 1..c + 9];
    }
  }

  /**
   * Decoding the body the program writes, followed by any tail, recovers
   * every stored field, and takes the release time from the tail alone.
   */
  lemma LayoutOfBody(a: LotteryAccount, tail: seq<byte>)
    requires WellFormedLottery(a)
    ensures LotteryLayout(EncodeLotteryBody(a) + tail) == Ok(a.(releaseTime := ReleaseOf(tail)))
  {
    BodyShape(a, tail);
    LayoutOfShaped(EncodeLotteryBody(a) + tail, a, tail);
  }

  /** In a shaped buffer the two option flags put the cursor where the payloads end. */
  lemma ShapedOffsets(buf: seq<byte>, a: LotteryAccount, tail: seq<byte>)
    requires WellFormedLottery(a) && Shaped(buf, a, tail)
    ensures var a0 := 56 + |OptionU64(a.winnerTicket)|;
      && |buf| > WINNER_FLAG_OFFSET && AfterWinnerTicket(buf) == a0
      && AfterWinnerAddress(buf, a0) == a0 + |OptionKey(a.winnerAddress)|
      && (buf[WINNER_FLAG_OFFSET] == 1 <==> a.winnerTicket.Some?)
      && (a0 < |buf| && buf[a0] == 1 <==> a.winnerAddress.Some?)
  {
    var wt, wa := OptionU64(a.winnerTicket), OptionKey(a.winnerAddress);
    var a0 := 56 + |wt|;
    var b := a0 + |wa|;
    assert buf[56] == wt[0] by { assert buf[56..a0][0] == wt[0]; }
    assert buf[a0] == wa[0] by { assert buf[a0..b][0] == wa[0]; }
  }

  /** In a shaped buffer every field reads back as the value written. */
  lemma ShapedValues(buf: seq<byte>, a: LotteryAccount, tail: seq<byte>)
    requires WellFormedLottery(a) && Shaped(buf, a, tail)
    ensures var a0 := 56 + |OptionU64(a.winnerTicket)|;
      var b := a0 + |OptionKey(a.winnerAddress)|;
      && U64At(buf, 32) == a.lotteryId && U64At(buf, 40) == a.ticketPrice
      && U64At(buf, 48) == a.totalTickets && U64At(buf, b + 1) == a.prizePool
      && (a.winnerTicket.Some? ==> U64At(buf, 57) == a.winnerTicket.value)
      && (a.winnerAddress.Some? ==> buf[a0 + 1..a0 + 33] == a.winnerAddress.value)
      && buf[b + 10..] == tail
  {
    var wt, wa := OptionU64(a.winnerTicket), OptionKey(a.winnerAddress);
    var a0 := 56 + |wt|;
    var b := a0 + |wa|;
    U64AtEncoded(buf, 32, a.lotteryId);
    U64AtEncoded(buf, 40, a.ticketPrice);
    U64AtEncoded(buf, 48, a.totalTickets);
    U64AtEncoded(buf, b + 1, a.prizePool);
    if a.winnerTicket.Some? {
      assert buf[57..65] == wt[1..] by { assert buf[57..65] == buf[56..a0][1..]; }
      U64AtEncoded(buf, 57, a.winnerTicket.value);
    }
    if a.winnerAddress.Some? {
      assert buf[a0 + 1..a0 + 33] == wa[1..] by { assert buf[a0 + 1..a0 + 33] == buf[a0..b][1..]; }
    }
  }

  /** A buffer laid out as an account's body, whatever built it, reads back as that account. */
  lemma LayoutOfShaped(buf: seq<byte>, a: LotteryAccount, tail: seq<byte>)
    requires WellFormedLottery(a) && Shaped(buf, a, tail)
    ensures LotteryLayout(buf) == Ok(a.(releaseTime := ReleaseOf(tail)))
  {
    var a0 := 56 + |OptionU64(a.winnerTicket)|;
    var b := a0 + |OptionKey(a.winnerAddress)|;
    ShapedOffsets(buf, a, tail);
    ShapedValues(buf, a, tail);
    LayoutAt(buf, a0, b);
  }

  /** The layout recovers every field the program wrote, the release time included. */
  lemma LotteryLayoutRoundTrip(a: LotteryAccount)
    requires WellFormedLottery(a)
    ensures LotteryLayout(EncodeLottery(a)) == Ok(a)
  {
    LayoutOfBody(a, OptionU64(a.releaseTime));
    ReleaseOfOption(a.releaseTime);
  }

  /** The release option written by the program reads back as itself. */
  lemma ReleaseOfOption(o: Option<nat>)
    requires o.Some? ==> IsU64(o.value)
    ensures ReleaseOf(OptionU64(o)) == o
  {
    if o.Some? {
      assert OptionU64(o)[1..9] == U64LE(o.value).value;
    }
  }

  /**
   * A missing or short release-time tail, or one whose flag is not 1, is
   * not an error: the account decodes with releaseTime null.
   */
  lemma ReleaseTailOptional(a: LotteryAccount, tail: seq<byte>, fees: bool, find: Finder, program: Address)
    requires WellFormedLottery(a)
    requires |tail| < 9 || tail[0] != 1
    ensures DecodeLottery(EncodeLotteryBody(a) + tail, fees, find, program)
            == Ok(Present(a.(releaseTime := None), fees, find, program))
  {
    LayoutOfBody(a, tail);
  }

  /**
   * What DecodeLotteryState returns for an account the program wrote: the
   * stored fields, an absent winning ticket as 0, a present release time as
   * 0, release equal to the lottery address, and with fees the prize pool
   * less 10%.
   */
  lemma DecodeLotteryRoundTrip(a: LotteryAccount, fees: bool, find: Finder, program: Address)
    requires WellFormedLottery(a)
    ensures DecodeLottery(EncodeLottery(a), fees, find, program).Ok?
    ensures var s := DecodeLottery(EncodeLottery(a), fees, find, program).value;
      && s.authority == a.authority && s.lotteryId == a.lotteryId
      && s.ticketPrice == a.ticketPrice && s.totalTickets == a.totalTickets
      && s.winnerTicketNumber == (if a.winnerTicket.Some? then a.winnerTicket.value else 0)
      && s.winnerAddress == a.winnerAddress
      && s.isActive == a.isActive && s.drawInitiated == a.drawInitiated
      && s.prizePoolBalance == (if fees then a.prizePool as real * 0.9 else a.prizePool as real)
      && s.releaseTime == (if a.releaseTime.Some? then Some(0) else None)
      && s.prizePoolAddress == find(PrizePoolSeeds(), program).address
      && s.lotteryAddress == find(LotterySeeds(a.authority, a.lotteryId).value, program).address
      && s.release == s.lotteryAddress
  {
    LotteryLayoutRoundTrip(a);
  }

  /**
   * The release timestamp is read and then discarded: an account the
   * program wrote with a nonzero release time t has t in its layout, but
   * DecodeLotteryState reports 0.
   */
  lemma ReleaseTimeDiscarded(a: LotteryAccount, fees: bool, find: Finder, program: Address)
    requires WellFormedLottery(a) && a.releaseTime.Some? && a.releaseTime.value != 0
    ensures LotteryLayout(EncodeLottery(a)).Ok? && LotteryLayout(EncodeLottery(a)).value.releaseTime == a.releaseTime
    ensures DecodeLottery(EncodeLottery(a), fees, find, program).Ok?
            && DecodeLottery(EncodeLottery(a), fees, find, program).value.releaseTime == Some(0)
  {
    LotteryLayoutRoundTrip(a);
  }

  /**
   * The evidently intended decode: the release time reports the value read
   * from the account rather than Number of the still-null outer variable.
   */
  function IntendedDecodeLottery(buf: seq<byte>, fees: bool, find: Finder, program: Address): Result<LotteryState> {
    match LotteryLayout(buf)
    case Err(e) => Err(e)
    case Ok(a) =>
      Ok(Present(a, fees, find, program).(releaseTime := if a.releaseTime.Some? then Some(a.releaseTime.value) else None))
  }

  /** With the intended decode, a release time the program wrote reads back unchanged. */
  lemma IntendedReleaseTimeRoundTrip(a: LotteryAccount, fees: bool, find: Finder, program: Address)
    requires WellFormedLottery(a)
    ensures IntendedDecodeLottery(EncodeLottery(a), fees, find, program).Ok?
    ensures var s := IntendedDecodeLottery(EncodeLottery(a), fees, find, program).value;
      s.releaseTime == (if a.releaseTime.Some? then Some(a.releaseTime.value) else None)
      && s == DecodeLottery(EncodeLottery(a), fees, find, program).value.(releaseTime := s.releaseTime)
  {
    LotteryLayoutRoundTrip(a);
  }
}
