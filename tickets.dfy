/**
 * The ticket read path and the ticket-purchase bundle of the Lottery class:
 * GetTicket, GetTickets (solotto.js:382-462) and BundleTickets
 * (solotto.js:332-375). The account store behind getProgramAccounts and
 * getAccountInfo is the parameter `ledger`, read as one snapshot.
 */
module Tickets {
  import opened Primitives
  import opened Derivation
  import opened Instructions
  import opened StateDecoder

  // ---------------------------------------------------------------------
  // Account filters
  // ---------------------------------------------------------------------

  /** A program account: its address and its data. */
  datatype Account = Account(pubkey: Address, data: seq<byte>)

  /** The RPC's account filters: exact size, or bytes equal at an offset. */
  datatype Filter = DataSize(size: nat) | Memcmp(offset: nat, bytes: seq<byte>)

  predicate Matches(data: seq<byte>, f: Filter) {
    if f.DataSize? then |data| == f.size
    else f.offset + |f.bytes| <= |data| && data[f.offset..f.offset + |f.bytes|] == f.bytes
  }

  predicate MatchesAll(data: seq<byte>, fs: seq<Filter>) {
    forall i :: 0 <= i < |fs| ==> Matches(data, fs[i])
  }

  /** getProgramAccounts: the accounts of the snapshot that pass every filter, in order. */
  function ProgramAccounts(ledger: seq<Account>, fs: seq<Filter>): (r: seq<Account>)
    ensures |r| <= |ledger|
  {
    if ledger == [] then []
    else
      var rest := ProgramAccounts(ledger[1..], fs);
      if MatchesAll(ledger[0].data, fs) then [ledger[0]] + rest else rest
  }

  /** The accounts returned are exactly the snapshot's accounts that pass every filter. */
  lemma {:induction false} ProgramAccountsExact(ledger: seq<Account>, fs: seq<Filter>)
    ensures forall k :: 0 <= k < |ProgramAccounts(ledger, fs)| ==>
      ProgramAccounts(ledger, fs)[k] in ledger && MatchesAll(ProgramAccounts(ledger, fs)[k].data, fs)
    ensures forall k :: 0 <= k < |ledger| && MatchesAll(ledger[k].data, fs) ==> ledger[k] in ProgramAccounts(ledger, fs)
  {
    if ledger != [] {
      ProgramAccountsExact(ledger[1..], fs);
      var rest := ProgramAccounts(ledger[1..], fs);
      forall k | 0 <= k < |ledger| && MatchesAll(ledger[k].data, fs)
        ensures ledger[k] in ProgramAccounts(ledger, fs)
      {
        if k > 0 { assert ledger[k] == ledger[1..][k - 1]; }
      }
      forall k | 0 <= k < |ProgramAccounts(ledger, fs)|
        ensures ProgramAccounts(ledger, fs)[k] in ledger
      {
        var x := ProgramAccounts(ledger, fs)[k];
        if x != ledger[0] { assert x in rest; }
      }
    }
  }

  /** The first account returned is the first of the snapshot that passes every filter. */
  lemma {:induction false} ProgramAccountsFirst(ledger: seq<Account>, fs: seq<Filter>)
    ensures ProgramAccounts(ledger, fs) != [] ==>
      exists k :: 0 <= k < |ledger| && ledger[k] == ProgramAccounts(ledger, fs)[0]
        && MatchesAll(ledger[k].data, fs) && forall j :: 0 <= j < k ==> !MatchesAll(ledger[j].data, fs)
  {
    if ledger != [] && !MatchesAll(ledger[0].data, fs) {
      ProgramAccountsFirst(ledger[1..], fs);
      if ProgramAccounts(ledger, fs) != [] {
        var k :| 0 <= k < |ledger[1..]| && ledger[1..][k] == ProgramAccounts(ledger[1..], fs)[0]
          && MatchesAll(ledger[1..][k].data, fs) && forall j :: 0 <= j < k ==> !MatchesAll(ledger[1..][j].data, fs);
        assert forall j :: 0 <= j < k + 1 ==> !MatchesAll(ledger[j].data, fs) by {
          forall j | 0 <= j < k + 1 ensures !MatchesAll(ledger[j].data, fs) {
            if j > 0 { assert ledger[j] == ledger[1..][j - 1]; }
          }
        }
      }
    } else if ledger != [] {
      assert ProgramAccounts(ledger, fs)[0] == ledger[0];
    }
  }

  /** The filters of GetTicket (solotto.js:390-399). */
  function TicketFilters(lottery: Address, ticketBytes: seq<byte>): seq<Filter> {
    [DataSize(TICKET_SIZE), Memcmp(LOTTERY_OFFSET, lottery), Memcmp(NUMBER_OFFSET, ticketBytes)]
  }

  /** The filters of GetTickets (solotto.js:432-435); the owner filter only for a given buyer. */
  function TicketListFilters(lottery: Address, buyer: Option<Address>): seq<Filter> {
    [DataSize(TICKET_SIZE)]
    + (if buyer.Some? then [Memcmp(OWNER_OFFSET, buyer.value)] else [])
    + [Memcmp(LOTTERY_OFFSET, lottery)]
  }

  /**
   * GetTicket's filters select exactly the ticket records of that lottery
   * carrying that ticket number.
   */
  lemma TicketFiltersExact(data: seq<byte>, lottery: Address, ticket: int)
    requires IsU64(ticket)
    ensures MatchesAll(data, TicketFilters(lottery, U64LE(ticket).value)) <==>
            |data| == TICKET_SIZE && DecodeTicket(data).lottery == lottery
            && DecodeTicket(data).ticketNumber == ticket
  {
    var fs := TicketFilters(lottery, U64LE(ticket).value);
    if |data| == TICKET_SIZE {
      var t := DecodeTicket(data);
      if t.lottery == lottery && t.ticketNumber == ticket {
        assert Matches(data, fs[0]) && Matches(data, fs[1]) && Matches(data, fs[2]);
      }
      if MatchesAll(data, fs) {
        assert Matches(data, fs[2]);
        assert U64LE(t.ticketNumber) == Ok(data[96..104]);
        U64LEInjective(t.ticketNumber, ticket);
        assert Matches(data, fs[1]);
      }
    } else {
      assert !Matches(data, fs[0]);
    }
  }

  /**
   * GetTickets' filters select exactly the ticket records of that lottery,
   * and, given a buyer, only those the buyer owns.
   */
  lemma TicketListFiltersExact(data: seq<byte>, lottery: Address, buyer: Option<Address>)
    ensures MatchesAll(data, TicketListFilters(lottery, buyer)) <==>
            |data| == TICKET_SIZE && DecodeTicket(data).lottery == lottery
            && (buyer.Some? ==> DecodeTicket(data).owner == buyer.value)
  {
    var fs := TicketListFilters(lottery, buyer);
    if |data| == TICKET_SIZE {
      var t := DecodeTicket(data);
      if buyer.Some? {
        assert fs == [DataSize(TICKET_SIZE), Memcmp(OWNER_OFFSET, buyer.value), Memcmp(LOTTERY_OFFSET, lottery)];
        if MatchesAll(data, fs) {
          assert Matches(data, fs[1]) && Matches(data, fs[2]);
        }
        if t.lottery == lottery && t.owner == buyer.value {
          assert Matches(data, fs[0]) && Matches(data, fs[1]) && Matches(data, fs[2]);
        }
      } else {
        assert fs == [DataSize(TICKET_SIZE), Memcmp(LOTTERY_OFFSET, lottery)];
        if MatchesAll(data, fs) {
          assert Matches(data, fs[1]);
        }
        if t.lottery == lottery {
          assert Matches(data, fs[0]) && Matches(data, fs[1]);
        }
      }
    } else {
      assert !Matches(data, fs[0]);
    }
  }

  // ---------------------------------------------------------------------
  // GetTicket
  // ---------------------------------------------------------------------

  /** What GetTicket returns (solotto.js:409-417). */
  datatype TicketInfo = TicketInfo(
    ticketOwner: Address,
    ticketReceipt: Address,
    ticketNumber: nat,
    ticketPda: Address,
    lotteryId: int,
    lotteryAddress: Address,
    lotteryAuth: Address)

  /** The account holds a 104-byte ticket record of that lottery with that number. */
  predicate HoldsTicket(acc: Account, lottery: Address, ticket: int) {
    |acc.data| == TICKET_SIZE && DecodeTicket(acc.data).lottery == lottery
    && DecodeTicket(acc.data).ticketNumber == ticket
  }

  /** The first account GetTicket's query returns is the first ticket of that lottery and number. */
  lemma FirstTicketMatch(ledger: seq<Account>, lottery: Address, ticket: int)
    requires IsU64(ticket)
    ensures var found := ProgramAccounts(ledger, TicketFilters(lottery, U64LE(ticket).value));
      found != [] ==>
        exists k :: 0 <= k < |ledger| && ledger[k] == found[0] && HoldsTicket(ledger[k], lottery, ticket)
          && forall j :: 0 <= j < k ==> !HoldsTicket(ledger[j], lottery, ticket)
  {
    var fs := TicketFilters(lottery, U64LE(ticket).value);
    var found := ProgramAccounts(ledger, fs);
    ProgramAccountsFirst(ledger, fs);
    if found != [] {
      var k :| 0 <= k < |ledger| && ledger[k] == found[0]
        && MatchesAll(ledger[k].data, fs) && forall j :: 0 <= j < k ==> !MatchesAll(ledger[j].data, fs);
      TicketFiltersExact(ledger[k].data, lottery, ticket);
      assert HoldsTicket(ledger[k], lottery, ticket);
      forall j | 0 <= j < k ensures !HoldsTicket(ledger[j], lottery, ticket) {
        TicketFiltersExact(ledger[j].data, lottery, ticket);
      }
      assert 0 <= k < |ledger| && ledger[k] == found[0] && HoldsTicket(ledger[k], lottery, ticket)
        && forall j :: 0 <= j < k ==> !HoldsTicket(ledger[j], lottery, ticket);
    }
  }

  /**
   * GetTicket (solotto.js:382-418): derive the lottery address, ask for the
   * accounts matching the lottery and the ticket number, and decode the
   * first, which is the first ticket of the snapshot with that lottery and
   * number. A lottery id or ticket number that is not a u64 makes
   * writeBigUInt64LE throw; no match makes `data_[0].pubkey` throw.
   */
  function GetTicket(find: Finder, program: Address, ledger: seq<Account>,
                     authority: Address, lotteryId: int, ticket: int): (r: Result<TicketInfo>)
    ensures r.Ok? <==>
      && IsU64(lotteryId) && IsU64(ticket)
      && exists k :: 0 <= k < |ledger| && |ledger[k].data| == TICKET_SIZE
           && DecodeTicket(ledger[k].data).lottery == DeriveLotteryPda(find, program, authority, lotteryId).value.address
           && DecodeTicket(ledger[k].data).ticketNumber == ticket
    ensures r.Ok? ==>
      && r.value.ticketNumber == ticket
      && r.value.lotteryAddress == DeriveLotteryPda(find, program, authority, lotteryId).value.address
      && r.value.lotteryId == lotteryId && r.value.lotteryAuth == authority
      && exists k :: 0 <= k < |ledger| && HoldsTicket(ledger[k], r.value.lotteryAddress, ticket)
           && (forall j :: 0 <= j < k ==> !HoldsTicket(ledger[j], r.value.lotteryAddress, ticket))
           && ledger[k].pubkey == r.value.ticketPda
           && DecodeTicket(ledger[k].data).owner == r.value.ticketOwner
           && DecodeTicket(ledger[k].data).ticketReceipt == r.value.ticketReceipt
  {
    match DeriveLotteryPda(find, program, authority, lotteryId)
    case Err(e) => Err(e)
    case Ok(lotteryPda) =>
      match U64LE(ticket)
      case Err(e) => Err(e)
      case Ok(ticketBytes) =>
        var found := ProgramAccounts(ledger, TicketFilters(lotteryPda.address, ticketBytes));
        ProgramAccountsExact(ledger, TicketFilters(lotteryPda.address, ticketBytes));
        TicketMatchesExist(ledger, lotteryPda.address, ticket);
        FirstTicketMatch(ledger, lotteryPda.address, ticket);
        if found == [] then Err("TypeError: Cannot read properties of undefined (reading 'pubkey')")
        else
          var data := found[0];
          TicketFiltersExact(data.data, lotteryPda.address, ticket);
          var decoded := DecodeTicket(data.data);
          Ok(TicketInfo(decoded.owner, decoded.ticketReceipt, decoded.ticketNumber, data.pubkey,
                        lotteryId, decoded.lottery, authority))
  }

  /** Some account passes GetTicket's filters exactly when one holds that lottery and number. */
  lemma TicketMatchesExist(ledger: seq<Account>, lottery: Address, ticket: int)
    requires IsU64(ticket)
    ensures ProgramAccounts(ledger, TicketFilters(lottery, U64LE(ticket).value)) != [] <==>
      exists k :: 0 <= k < |ledger| && |ledger[k].data| == TICKET_SIZE
        && DecodeTicket(ledger[k].data).lottery == lottery
        && DecodeTicket(ledger[k].data).ticketNumber == ticket
  {
    var fs := TicketFilters(lottery, U64LE(ticket).value);
    var found := ProgramAccounts(ledger, fs);
    ProgramAccountsExact(ledger, fs);
    if found != [] {
      var k :| 0 <= k < |ledger| && ledger[k] == found[0];
      TicketFiltersExact(ledger[k].data, lottery, ticket);
    }
    if exists k :: 0 <= k < |ledger| && |ledger[k].data| == TICKET_SIZE
        && DecodeTicket(ledger[k].data).lottery == lottery
        && DecodeTicket(ledger[k].data).ticketNumber == ticket {
      var k :| 0 <= k < |ledger| && |ledger[k].data| == TICKET_SIZE
        && DecodeTicket(ledger[k].data).lottery == lottery
        && DecodeTicket(ledger[k].data).ticketNumber == ticket;
      TicketFiltersExact(ledger[k].data, lottery, ticket);
    }
  }

  // ---------------------------------------------------------------------
  // GetTickets
  // ---------------------------------------------------------------------

  /** One element of GetTickets' list (solotto.js:441-448). */
  datatype TicketEntry = TicketEntry(
    owner: Address, lottery: Address, ticketReceipt: Address, ticketNumber: nat, ticketPda: Address)

  /** What GetTickets returns; a buyer of None is reported as "All". */
  datatype TicketList = TicketList(
    lotteryId: int, lotteryAddress: Address, lotteryAuth: Address, buyer: Option<Address>, tickets: seq<TicketEntry>)

  function EntryOf(acc: Account): TicketEntry {
    var t := DecodeTicket(acc.data);
    TicketEntry(t.owner, t.lottery, t.ticketReceipt, t.ticketNumber, acc.pubkey)
  }

  /** The entries decoded from the matched accounts, before sorting. */
  function Entries(found: seq<Account>): (r: seq<TicketEntry>)
    ensures |r| == |found|
    ensures forall k :: 0 <= k < |found| ==> r[k] == EntryOf(found[k])
  {
    if found == [] then [] else Entries(found[..|found| - 1]) + [EntryOf(found[|found| - 1])]
  }

  /** Non-increasing by ticket number, as `sort((a, b) => b.ticketNumber - a.ticketNumber)` leaves it. */
  predicate SortedDescending(ts: seq<TicketEntry>) {
    forall i, j :: 0 <= i < j < |ts| ==> ts[i].ticketNumber >= ts[j].ticketNumber
  }

  function Insert(t: TicketEntry, ts: seq<TicketEntry>): (r: seq<TicketEntry>)
    requires SortedDescending(ts)
    ensures SortedDescending(r)
    ensures multiset(r) == multiset(ts) + multiset{t}
    ensures |r| == |ts| + 1 && (r[0] == t || (ts != [] && r[0] == ts[0]))
  {
    if ts == [] || t.ticketNumber >= ts[0].ticketNumber then
      [t] + ts
    else
      assert ts == [ts[0]] + ts[1..];
      [ts[0]] + Insert(t, ts[1..])
  }

  /** The array sort of GetTickets, stated on values: a sorted permutation. */
  function SortDescending(ts: seq<TicketEntry>): (r: seq<TicketEntry>)
    ensures SortedDescending(r)
    ensures multiset(r) == multiset(ts)
  {
    if ts == [] then []
    else
      assert ts == [ts[0]] + ts[1..];
      Insert(ts[0], SortDescending(ts[1..]))
  }

  /** The accounts GetTickets asks for: the lottery's tickets, only the buyer's when one is given. */
  function TicketListAccounts(find: Finder, program: Address, ledger: seq<Account>,
                              authority: Address, lotteryId: int, buyer: Option<Address>): seq<Account>
    requires IsU64(lotteryId)
  {
    ProgramAccounts(ledger, TicketListFilters(DeriveLotteryPda(find, program, authority, lotteryId).value.address, buyer))
  }

  /** Every account GetTickets' filters let through is a ticket record of that lottery (and buyer). */
  predicate Selected(found: seq<Account>, lottery: Address, buyer: Option<Address>) {
    forall k :: 0 <= k < |found| ==>
      && |found[k].data| == TICKET_SIZE
      && DecodeTicket(found[k].data).lottery == lottery
      && (buyer.Some? ==> DecodeTicket(found[k].data).owner == buyer.value)
  }

  lemma FilteredAreSelected(ledger: seq<Account>, lottery: Address, buyer: Option<Address>)
    ensures Selected(ProgramAccounts(ledger, TicketListFilters(lottery, buyer)), lottery, buyer)
  {
    var found := ProgramAccounts(ledger, TicketListFilters(lottery, buyer));
    ProgramAccountsExact(ledger, TicketListFilters(lottery, buyer));
    forall k | 0 <= k < |found|
      ensures |found[k].data| == TICKET_SIZE
      ensures DecodeTicket(found[k].data).lottery == lottery
      ensures buyer.Some? ==> DecodeTicket(found[k].data).owner == buyer.value
    {
      TicketListFiltersExact(found[k].data, lottery, buyer);
    }
  }

  /** The entries of selected accounts all belong to the lottery, and to the buyer when given. */
  lemma SelectedEntries(found: seq<Account>, lottery: Address, buyer: Option<Address>)
    requires Selected(found, lottery, buyer)
    ensures forall t :: t in Entries(found) ==> t.lottery == lottery && (buyer.Some? ==> t.owner == buyer.value)
  {
    var es := Entries(found);
    forall t | t in es ensures t.lottery == lottery && (buyer.Some? ==> t.owner == buyer.value) {
      var k :| 0 <= k < |es| && es[k] == t;
      assert t == EntryOf(found[k]);
    }
  }

  /** The loop of GetTickets that decodes each account found into an entry, in order. */
  method DecodeEntries(found: seq<Account>) returns (tickets: seq<TicketEntry>)
    ensures tickets == Entries(found)
  {
    tickets := [];
    var i := 0;
    while i < |found|
      invariant 0 <= i <= |found|
      invariant tickets == Entries(found[..i])
    {
      var data := found[i];
      var decoded := DecodeTicket(data.data);
      var newTicket := TicketEntry(decoded.owner, decoded.lottery, decoded.ticketReceipt, decoded.ticketNumber, data.pubkey);
      assert found[..i + 1][..i] == found[..i];
      tickets := tickets + [newTicket];
      i := i + 1;
    }
    assert found[..i] == found;
  }

  /**
   * GetTickets (solotto.js:425-462): derive the lottery address, fetch and
   * decode every matching ticket account, then sort descending by number.
   * The result lists exactly the selected tickets, each once, in
   * non-increasing ticket-number order.
   */
  method GetTickets(find: Finder, program: Address, ledger: seq<Account>,
                    authority: Address, lotteryId: int, buyer: Option<Address>) returns (r: Result<TicketList>)
    ensures r.Ok? <==> IsU64(lotteryId)
    ensures r.Ok? ==>
      && r.value.lotteryId == lotteryId
      && r.value.lotteryAddress == DeriveLotteryPda(find, program, authority, lotteryId).value.address
      && r.value.lotteryAuth == authority && r.value.buyer == buyer
      && Selected(TicketListAccounts(find, program, ledger, authority, lotteryId, buyer), r.value.lotteryAddress, buyer)
      && multiset(r.value.tickets) == multiset(Entries(TicketListAccounts(find, program, ledger, authority, lotteryId, buyer)))
      && SortedDescending(r.value.tickets)
      && forall t :: t in r.value.tickets ==> t.lottery == r.value.lotteryAddress && (buyer.Some? ==> t.owner == buyer.value)
  {
    var lotteryPda := DeriveLotteryPda(find, program, authority, lotteryId);
    if lotteryPda.Err? { return Err(lotteryPda.message); }
    var pda := lotteryPda.value.address;
    var found := ProgramAccounts(ledger, TicketListFilters(pda, buyer));
    FilteredAreSelected(ledger, pda, buyer);
    var tickets := DecodeEntries(found);
    SelectedEntries(found, pda, buyer);
    var sorted := SortDescending(tickets);
    assert forall t :: t in sorted ==> t in multiset(tickets);
    r := Ok(TicketList(lotteryId, pda, authority, buyer, sorted));
  }

  // ---------------------------------------------------------------------
  // BundleTickets
  // ---------------------------------------------------------------------

  /** What BundleTickets returns: the instructions and the receipt key pairs that must sign. */
  datatype Bundle = Bundle(ixs: seq<Ix>, signers: seq<Keypair>)

  /** The system-program call creating an empty receipt account owned by the lottery program. */
  function CreateReceiptIx(program: Address, buyer: Address, receipt: Address, rent: int): Ix {
    CreateAccount(buyer, receipt, rent, 0, program)
  }

  /** The buy-ticket instruction (solotto.js:356-367). */
  function BuyTicketIx(program: Address, buyer: Address, lotteryPda: Address, ticketPda: Address,
                       prizePoolPda: Address, receipt: Address): Ix {
    Program(program, [
      AccountMeta(buyer, true, true),
      AccountMeta(lotteryPda, false, true),
      AccountMeta(ticketPda, false, true),
      AccountMeta(prizePoolPda, false, true),
      AccountMeta(receipt, true, true),
      AccountMeta(SYSTEM_PROGRAM, false, false)], TagOnlyData(BuyTicket))
  }

  /** The buy instruction for one receipt, with the ticket and prize-pool addresses derived. */
  function BuyFor(find: Finder, program: Address, buyer: Address, lotteryPda: Address, receipt: Address): Ix {
    BuyTicketIx(program, buyer, lotteryPda, DeriveTicketPda(find, program, lotteryPda, buyer, receipt).address,
                DerivePrizePoolPda(find, program).address, receipt)
  }

  /** The number of times `while (i < amount)` runs from 0. */
  function Rounds(amount: int): nat {
    if amount > 0 then amount else 0
  }

  /** The k-th ticket of a bundle occupies instructions 2k and 2k+1 and signer k. */
  predicate TicketSlot(b: Bundle, k: nat, find: Finder, program: Address, buyer: Address, lotteryPda: Address,
                       rent: int, keygen: nat -> Keypair)
    requires 2 * k + 1 < |b.ixs| && k < |b.signers|
  {
    && b.signers[k] == keygen(k)
    && b.ixs[2 * k] == CreateReceiptIx(program, buyer, keygen(k).publicKey, rent)
    && b.ixs[2 * k + 1] == BuyFor(find, program, buyer, lotteryPda, keygen(k).publicKey)
  }

  /**
   * BundleTickets (solotto.js:332-375): one fresh receipt key pair per
   * ticket (the k-th drawn from `keygen`), a create/buy instruction pair
   * for it, and the receipt as a signer. getMinimumBalanceForRentExemption(0)
   * is the parameter `rent`.
   */
  method BundleTickets(find: Finder, program: Address, authority: Address, buyer: Address,
                       lotteryId: int, amount: int, rent: int, keygen: nat -> Keypair) returns (r: Result<Bundle>)
    ensures r.Ok? <==> IsU64(lotteryId)
    ensures r.Ok? ==> |r.value.ixs| == 2 * Rounds(amount) && |r.value.signers| == Rounds(amount)
    ensures r.Ok? ==> forall k: nat :: k < Rounds(amount) ==>
      TicketSlot(r.value, k, find, program, buyer, DeriveLotteryPda(find, program, authority, lotteryId).value.address, rent, keygen)
  {
    var lotteryPda := DeriveLotteryPda(find, program, authority, lotteryId);
    if lotteryPda.Err? { return Err(lotteryPda.message); }
    var pda := lotteryPda.value.address;
    var prizePoolPda := DerivePrizePoolPda(find, program).address;
    var ixs: seq<Ix> := [];
    var signers: seq<Keypair> := [];
    var i: nat := 0;
    while i < amount
      invariant i <= Rounds(amount)
      invariant |ixs| == 2 * i && |signers| == i
      invariant forall k: nat :: k < i ==> TicketSlot(Bundle(ixs, signers), k, find, program, buyer, pda, rent, keygen)
    {
      ghost var before := Bundle(ixs, signers);
      var ticketReceipt := keygen(i);
      signers := signers + [ticketReceipt];
      var createReceiptAccountIx := CreateReceiptIx(program, buyer, ticketReceipt.publicKey, rent);
      ixs := ixs + [createReceiptAccountIx];
      var ticketPda := DeriveTicketPda(find, program, pda, buyer, ticketReceipt.publicKey).address;
      var ix := BuyTicketIx(program, buyer, pda, ticketPda, prizePoolPda, ticketReceipt.publicKey);
      ixs := ixs + [ix];
      forall k: nat | k < i
        ensures TicketSlot(Bundle(ixs, signers), k, find, program, buyer, pda, rent, keygen)
      {
        assert TicketSlot(before, k, find, program, buyer, pda, rent, keygen);
        assert ixs[2 * k] == before.ixs[2 * k] && ixs[2 * k + 1] == before.ixs[2 * k + 1];
      }
      i := i + 1;
    }
    r := Ok(Bundle(ixs, signers));
  }

  /**
   * Each buy instruction of a bundle calls the lottery program with the
   * BuyTicket discriminator and names its receipt as a signing, writable
   * account; the create instruction before it makes that receipt with no
   * space, paid by the buyer.
   */
  lemma BundleReceiptsSign(find: Finder, program: Address, buyer: Address, lotteryPda: Address,
                           rent: int, receipt: Address)
    ensures CreateReceiptIx(program, buyer, receipt, rent).newAccount == receipt
    ensures BuyFor(find, program, buyer, lotteryPda, receipt).programId == program
    ensures BuyFor(find, program, buyer, lotteryPda, receipt).keys[4] == AccountMeta(receipt, true, true)
    ensures BuyFor(find, program, buyer, lotteryPda, receipt).keys[0] == AccountMeta(buyer, true, true)
    ensures FromDiscriminator(BuyFor(find, program, buyer, lotteryPda, receipt).data[0]) == Some(BuyTicket)
  {
  }
}
