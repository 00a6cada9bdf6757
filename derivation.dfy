/**
 * Program-derived addresses of the lottery program (solotto.js:549-568).
 * The address search itself, findProgramAddressSync (hashing and a curve
 * check), is the parameter `find`: only the seed lists are modelled.
 */
module Derivation {
  import opened Primitives

  /** An address and the bump seed that made it fall off the curve. */
  datatype Pda = Pda(address: Address, bump: byte)

  /** findProgramAddressSync(seeds, programId). */
  type Finder = (seq<seq<byte>>, Address) -> Pda

  const LOTTERY_TAG: seq<byte> := AsciiBytes("lottery")
  const TICKET_TAG: seq<byte> := AsciiBytes("ticket")
  const PRIZE_POOL_TAG: seq<byte> := AsciiBytes("prize-pool")

  /**
   * Seeds of a lottery account: the tag "lottery", the authority's key and
   * the id as 8 little-endian bytes; writeBigUInt64LE throws for an id that
   * is not an unsigned 64-bit value (solotto.js:550-552).
   */
  function LotterySeeds(authority: Address, id: int): (r: Result<seq<seq<byte>>>)
    ensures r.Ok? <==> IsU64(id)
    ensures r.Ok? ==> |r.value| == 3 && r.value[0] == LOTTERY_TAG && r.value[1] == authority
                      && |r.value[2]| == 8 && FromLE(r.value[2]) == id
  {
    match U64LE(id)
    case Err(e) => Err(e)
    case Ok(idBytes) => Ok([LOTTERY_TAG, authority, idBytes])
  }

  /** Seeds of a ticket account (solotto.js:556-562). */
  function TicketSeeds(lottery: Address, buyer: Address, receipt: Address): (r: seq<seq<byte>>)
    ensures |r| == 4 && r[0] == TICKET_TAG && r[1] == lottery && r[2] == buyer && r[3] == receipt
  {
    [TICKET_TAG, lottery, buyer, receipt]
  }

  /** The one prize pool of the program has the tag as its only seed (solotto.js:567). */
  function PrizePoolSeeds(): (r: seq<seq<byte>>)
    ensures r == [PRIZE_POOL_TAG]
  {
    [PRIZE_POOL_TAG]
  }

  function DeriveLotteryPda(find: Finder, program: Address, authority: Address, id: int): (r: Result<Pda>)
    ensures r.Ok? <==> IsU64(id)
    ensures r.Ok? ==> r.value == find(LotterySeeds(authority, id).value, program)
  {
    match LotterySeeds(authority, id)
    case Err(e) => Err(e)
    case Ok(seeds) => Ok(find(seeds, program))
  }

  function DeriveTicketPda(find: Finder, program: Address, lottery: Address, buyer: Address, receipt: Address): Pda {
    find(TicketSeeds(lottery, buyer, receipt), program)
  }

  /**
   * DerivePrizePoolPDA takes no argument; the call at solotto.js:339
   * passes the lottery address, which JavaScript ignores.
   */
  function DerivePrizePoolPda(find: Finder, program: Address): Pda {
    find(PrizePoolSeeds(), program)
  }

  /**
   * Distinct (authority, id) pairs give distinct lottery seed lists, so the
   * derivation can tell every lottery of every authority apart.
   */
  lemma LotterySeedsInjective(a1: Address, id1: int, a2: Address, id2: int)
    requires LotterySeeds(a1, id1).Ok? && LotterySeeds(a2, id2).Ok?
    requires LotterySeeds(a1, id1) == LotterySeeds(a2, id2)
    ensures a1 == a2 && id1 == id2
  {
    var s := LotterySeeds(a1, id1).value;
    assert s[1] == a1 && s[1] == a2;
    U64LEInjective(id1, id2);
  }

  /** Distinct (lottery, buyer, receipt) triples give distinct ticket seed lists. */
  lemma TicketSeedsInjective(l1: Address, b1: Address, r1: Address, l2: Address, b2: Address, r2: Address)
    requires TicketSeeds(l1, b1, r1) == TicketSeeds(l2, b2, r2)
    ensures l1 == l2 && b1 == b2 && r1 == r2
  {
    var s := TicketSeeds(l1, b1, r1);
    assert s[1] == l1 && s[1] == l2;
    assert s[2] == b1 && s[2] == b2;
    assert s[3] == r1 && s[3] == r2;
  }

  /** The three families never share a seed list: their tags differ. */
  lemma SeedFamiliesDisjoint(authority: Address, id: int, lottery: Address, buyer: Address, receipt: Address)
    requires IsU64(id)
    ensures LotterySeeds(authority, id).value[0] != TicketSeeds(lottery, buyer, receipt)[0]
    ensures LotterySeeds(authority, id).value[0] != PrizePoolSeeds()[0]
    ensures TicketSeeds(lottery, buyer, receipt)[0] != PrizePoolSeeds()[0]
  {
    assert |LOTTERY_TAG| == 7 && |TICKET_TAG| == 6 && |PRIZE_POOL_TAG| == 10;
  }

  /**
   * `find` gives distinct addresses to distinct lists among `seeds`: what
   * a collision-resistant address hash provides on any handful of inputs.
   */
  predicate SeparatesSeeds(find: Finder, program: Address, seeds: set<seq<seq<byte>>>)
  {
    forall s1, s2 :: s1 in seeds && s2 in seeds && find(s1, program).address == find(s2, program).address ==> s1 == s2
  }

  /**
   * When the address search keeps these seed lists apart, a ticket address
   * names one (lottery, buyer, receipt) triple, and lottery, ticket and
   * prize pool addresses never coincide: a ticket account can be found again
   * from its triple and no account plays two roles.
   */
  lemma DerivationsSeparate(find: Finder, program: Address, authority: Address, id: int,
                            l1: Address, b1: Address, r1: Address, l2: Address, b2: Address, r2: Address)
    requires IsU64(id)
    requires SeparatesSeeds(find, program, {LotterySeeds(authority, id).value, TicketSeeds(l1, b1, r1),
                                            TicketSeeds(l2, b2, r2), PrizePoolSeeds()})
    ensures DeriveTicketPda(find, program, l1, b1, r1).address == DeriveTicketPda(find, program, l2, b2, r2).address
            ==> l1 == l2 && b1 == b2 && r1 == r2
    ensures DeriveTicketPda(find, program, l1, b1, r1).address != DerivePrizePoolPda(find, program).address
    ensures DeriveLotteryPda(find, program, authority, id).Ok?
    ensures DeriveLotteryPda(find, program, authority, id).value.address != DeriveTicketPda(find, program, l1, b1, r1).address
    ensures DeriveLotteryPda(find, program, authority, id).value.address != DerivePrizePoolPda(find, program).address
  {
    if DeriveTicketPda(find, program, l1, b1, r1).address == DeriveTicketPda(find, program, l2, b2, r2).address {
      TicketSeedsInjective(l1, b1, r1, l2, b2, r2);
    }
    SeedFamiliesDisjoint(authority, id, l1, b1, r1);
  }
}
