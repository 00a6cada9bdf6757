/**
 * Transaction instructions as the client builds them, and the instruction
 * data the lottery program expects: a one-byte discriminator followed by a
 * fixed payload (solotto.js:10-17 and the data builders of the wrappers).
 */
module Instructions {
  import opened Primitives

  /** A generated key pair; only its public half matters to this client. */
  datatype Keypair = Keypair(publicKey: Address)

  /** SystemProgram.programId: the all-zero key. */
  const SYSTEM_PROGRAM: Address :=
    [0, 0, 0, 0, 0, 0, 0, 0, 0, 0, 0, 0, 0, 0, 0, 0, 0, 0, 0, 0, 0, 0, 0, 0, 0, 0, 0, 0, 0, 0, 0, 0]

  /** One account reference of an instruction. */
  datatype AccountMeta = AccountMeta(pubkey: Address, isSigner: bool, isWritable: bool)

  /**
   * An instruction in a transaction: a call of some program with its
   * accounts and data, a system-program account creation, a memo, or one
   * of the two compute-budget settings.
   */
  datatype Ix =
    | Program(programId: Address, keys: seq<AccountMeta>, data: seq<byte>)
    | CreateAccount(from: Address, newAccount: Address, lamports: int, space: int, owner: Address)
    | Memo(text: string, signers: seq<Address>)
    | SetLimit(units: int)
    | SetPrice(microLamports: int)

  /** The lottery program's instructions (solotto.js:10-17). */
  datatype LotteryInstruction =
    | InitializeLottery
    | BuyTicket
    | DrawWinner
    | ClaimPrize
    | LockLottery
    | ReleaseExpired

  function Discriminator(i: LotteryInstruction): byte {
    match i
    case InitializeLottery => 0
    case BuyTicket => 1
    case DrawWinner => 2
    case ClaimPrize => 3
    case LockLottery => 4
    case ReleaseExpired => 5
  }

  /** How the program reads the first data byte back into an instruction. */
  function FromDiscriminator(b: byte): Option<LotteryInstruction> {
    if b == 0 then Some(InitializeLottery)
    else if b == 1 then Some(BuyTicket)
    else if b == 2 then Some(DrawWinner)
    else if b == 3 then Some(ClaimPrize)
    else if b == 4 then Some(LockLottery)
    else if b == 5 then Some(ReleaseExpired)
    else None
  }

  /** Each discriminator names exactly one instruction, and bytes above 5 name none. */
  lemma DiscriminatorRoundTrip(i: LotteryInstruction, b: byte)
    ensures FromDiscriminator(Discriminator(i)) == Some(i)
    ensures FromDiscriminator(b).Some? <==> b <= 5
    ensures FromDiscriminator(b).Some? ==> Discriminator(FromDiscriminator(b).value) == b
  {
  }

  /**
   * Data of the instructions whose payload is the discriminator alone:
   * claimData, ticketData, randomnessData and expiredData
   * (solotto.js:251-255, 333-337, 642-646, 762-766).
   */
  function TagOnlyData(i: LotteryInstruction): (d: seq<byte>)
    requires i in {BuyTicket, DrawWinner, ClaimPrize, ReleaseExpired}
    ensures |d| == 1 && FromDiscriminator(d[0]) == Some(i)
  {
    [Discriminator(i)]
  }

  /**
   * initializeData (solotto.js:589-595): a 17-byte buffer holding the
   * discriminator 0, the ticket price at offset 1 and the lottery id at
   * offset 9, both as unsigned 64-bit little-endian values; a RangeError
   * when either does not fit.
   */
  function InitializeData(price: int, id: int): (r: Result<seq<byte>>)
    ensures r.Ok? <==> IsU64(price) && IsU64(id)
    ensures r.Ok? ==> |r.value| == 17 && r.value[0] == Discriminator(InitializeLottery)
  {
    match U64LE(price)
    case Err(e) => Err(e)
    case Ok(p) =>
      match U64LE(id)
      case Err(e) => Err(e)
      case Ok(l) => Ok([Discriminator(InitializeLottery)] + p + l)
  }

  /** The initialize payload as the program parses it. */
  function ParseInitialize(d: seq<byte>): Option<(int, int)> {
    if |d| == 17 && d[0] == Discriminator(InitializeLottery) then
      Some((ReadU64LE(d, 1).value, ReadU64LE(d, 9).value))
    else
      None
  }

  /** Reading the u64 values at offsets 1 and 9 gives back the price and the id. */
  lemma InitializeRoundTrip(price: int, id: int)
    requires IsU64(price) && IsU64(id)
    ensures ParseInitialize(InitializeData(price, id).value) == Some((price, id))
  {
    var d := InitializeData(price, id).value;
    var p, l := U64LE(price).value, U64LE(id).value;
    assert d[1..9] == p;
    assert d[9..17] == l;
    FromToLE(price, 8);
    FromToLE(id, 8);
  }

  /** Every well-formed initialize payload is the encoding of the pair it parses to. */
  lemma {:induction false} InitializeParseThenEncode(d: seq<byte>)
    requires ParseInitialize(d).Some?
    ensures InitializeData(ParseInitialize(d).value.0, ParseInitialize(d).value.1) == Ok(d)
  {
    var price, id := ParseInitialize(d).value.0, ParseInitialize(d).value.1;
    assert U64LE(price) == Ok(d[1..9]);
    assert U64LE(id) == Ok(d[9..17]);
    assert d == [d[0]] + d[1..9] + d[9..17];
  }

  /**
   * lockData (solotto.js:704-709): the discriminator 4 and the new lock
   * state; writeUInt8 throws for a state outside 0..255.
   */
  function LockData(lock: int): (r: Result<seq<byte>>)
    ensures r.Ok? <==> 0 <= lock < 256
    ensures r.Ok? ==> |r.value| == 2 && FromDiscriminator(r.value[0]) == Some(LockLottery)
                      && r.value[1] == lock
  {
    if 0 <= lock < 256 then Ok([Discriminator(LockLottery), lock]) else Err("RangeError: value out of range")
  }
}
