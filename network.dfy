/**
 * LotteryNetwork (solotto.js:19-164): the transaction-request pipeline Tx,
 * compute sizing by simulation, and the priority-fee correction. The RPC
 * node, transaction compilation, serialization and base64 are the oracle
 * record `Rpc`; a compiled message is the value `Message` it is applied to.
 */
module Network {
  import opened Primitives
  import opened Instructions
  import opened JsText

  // ---------------------------------------------------------------------
  // The instruction array
  // ---------------------------------------------------------------------

  /**
   * A JavaScript array of instructions. Tx works on the caller's own array
   * (push and unshift change it in place); Compute and Estimate copy it.
   */
  class IxList {
    var items: seq<Ix>

    constructor (init: seq<Ix>)
      ensures items == init
    {
      items := init;
    }

    /** Array.prototype.push with one element. */
    method Push(x: Ix)
      modifies this
      ensures items == old(items) + [x]
    {
      items := items + [x];
    }

    /** Array.prototype.unshift with one element. */
    method Unshift(x: Ix)
      modifies this
      ensures items == [x] + old(items)
    {
      items := [x] + items;
    }
  }

  // ---------------------------------------------------------------------
  // Oracles
  // ---------------------------------------------------------------------

  /** An address lookup table passed to compileToV0Message. */
  datatype LookupTable = LookupTable(key: Address)

  /** A compiled v0 message: payer, recent blockhash, instructions and tables. */
  datatype Message = Message(payer: Address, blockhash: string, instructions: seq<Ix>, tables: seq<LookupTable>)

  /** A VersionedTransaction and the key pairs that signed it. */
  datatype Transaction = Transaction(message: Message, signedBy: seq<Keypair>)

  /** What simulateTransaction reports: an error (null when none), logs and units consumed. */
  datatype Simulation = Simulation(err: Option<string>, logs: seq<string>, unitsConsumed: nat)

  /**
   * The node and the libraries the client calls: the confirmed blockhash,
   * simulation, the getPriorityFeeEstimate answer after parseInt,
   * serialize() and base64 text of bytes.
   */
  datatype Rpc = Rpc(
    blockhash: string,
    simulate: Message -> Simulation,
    priorityFee: (string, Message) -> int,
    serialize: Transaction -> seq<byte>,
    base64: seq<byte> -> string)

  /** The network calls Tx makes, in order. */
  datatype RpcCall = GetLatestBlockhash | SimulateTransaction | GetPriorityFeeEstimate(priorityLevel: string)

  // ---------------------------------------------------------------------
  // Compute sizing
  // ---------------------------------------------------------------------

  const SIMULATION_UNIT_LIMIT: int := 1400000
  const SIMULATION_UNIT_PRICE: int := 10000

  /** Math.ceil on a real. */
  function Ceil(x: real): (n: int)
    ensures (n - 1) as real < x <= n as real
  {
    if x.Floor as real == x then x.Floor else x.Floor + 1
  }

  /** The units consumed times the tolerance. */
  function Scaled(consumed: nat, tolerance: real): real {
    consumed as real * tolerance
  }

  /** The message Compute simulates: price and limit first, then the instructions. */
  function SimulationMessage(payer: Address, blockhash: string, items: seq<Ix>, table: seq<LookupTable>): Message {
    Message(payer, blockhash, [SetPrice(SIMULATION_UNIT_PRICE), SetLimit(SIMULATION_UNIT_LIMIT)] + items, table)
  }

  /** Compute's answer: the simulation's error record, or the unit limit to request. */
  datatype Sizing = SimError(status: string, message: string, details: string, logs: seq<string>) | Units(units: int)

  /**
   * What Compute returns for a list of instructions: a failed simulation
   * gives its error and logs; otherwise the units consumed times the
   * tolerance, rounded up.
   */
  function ComputeOutcome(rpc: Rpc, payer: Address, items: seq<Ix>, tolerance: real, blockhash: string,
                          table: seq<LookupTable>): (r: Sizing)
    ensures r.SimError? <==> rpc.simulate(SimulationMessage(payer, blockhash, items, table)).err.Some?
    ensures r.SimError? ==> r == SimError("error", "simulation error",
      rpc.simulate(SimulationMessage(payer, blockhash, items, table)).err.value,
      rpc.simulate(SimulationMessage(payer, blockhash, items, table)).logs)
    ensures r.Units? ==>
      var want := Scaled(rpc.simulate(SimulationMessage(payer, blockhash, items, table)).unitsConsumed, tolerance);
      (r.units - 1) as real < want <= r.units as real
  {
    var res := rpc.simulate(SimulationMessage(payer, blockhash, items, table));
    if res.err.Some? then SimError("error", "simulation error", res.err.value, res.logs)
    else Units(Ceil(Scaled(res.unitsConsumed, tolerance)))
  }

  /**
   * Compute (solotto.js:124-136): copies the caller's instructions into a
   * new array, puts the limit and then the price in front, simulates and
   * sizes. The caller's array is not touched (no modifies clause).
   */
  method Compute(rpc: Rpc, payer: Address, ix: IxList, tolerance: real, blockhash: string, table: seq<LookupTable>)
    returns (r: Sizing)
    ensures r == ComputeOutcome(rpc, payer, ix.items, tolerance, blockhash, table)
  {
    var simLimit := SetLimit(SIMULATION_UNIT_LIMIT);
    var feeLimit := SetPrice(SIMULATION_UNIT_PRICE);
    var re := new IxList([]);
    var o := 0;
    while o < |ix.items|
      invariant 0 <= o <= |ix.items|
      invariant re.items == ix.items[..o]
    {
      re.Push(ix.items[o]);
      o := o + 1;
    }
    assert ix.items[..o] == ix.items;
    re.Unshift(simLimit);
    re.Unshift(feeLimit);
    assert re.items == [SetPrice(SIMULATION_UNIT_PRICE), SetLimit(SIMULATION_UNIT_LIMIT)] + ix.items;
    var msg := Message(payer, blockhash, re.items, table);
    var res := rpc.simulate(msg);
    if res.err.Some? {
      return SimError("error", "simulation error", res.err.value, res.logs);
    }
    var consumed := res.unitsConsumed;
    r := Units(Ceil(Scaled(consumed, tolerance)));
  }

  // ---------------------------------------------------------------------
  // Fee estimation
  // ---------------------------------------------------------------------

  const FLOOR_FEE: int := 10000
  const FEE_WHEN_ONE: int := 100000

  /**
   * The correction Estimate applies to the node's estimate
   * (solotto.js:159-161): 1 becomes 100000, anything below 10000 becomes
   * 10000, and everything else is kept.
   */
  function FeeCorrection(raw: int): (fee: int)
    ensures fee >= FLOOR_FEE
    ensures raw == 1 ==> fee == FEE_WHEN_ONE
    ensures raw != 1 && raw < FLOOR_FEE ==> fee == FLOOR_FEE
    ensures raw >= FLOOR_FEE ==> fee == raw
  {
    var data := if raw == 1 then FEE_WHEN_ONE else raw;
    if data < FLOOR_FEE then FLOOR_FEE else data
  }

  /** Correcting a corrected fee changes nothing. */
  lemma FeeCorrectionIdempotent(raw: int)
    ensures FeeCorrection(FeeCorrection(raw)) == FeeCorrection(raw)
  {
  }

  /**
   * Estimate (solotto.js:137-163): copies the instructions, compiles them
   * unchanged, asks the node for its estimate at the given level and
   * corrects it. The caller's array is not touched.
   */
  method Estimate(rpc: Rpc, payer: Address, priorityLevel: string, instructions: IxList, blockhash: string,
                  table: seq<LookupTable>) returns (fee: int)
    ensures fee == FeeCorrection(rpc.priorityFee(priorityLevel, Message(payer, blockhash, instructions.items, table)))
  {
    var reIx := new IxList([]);
    var o := 0;
    while o < |instructions.items|
      invariant 0 <= o <= |instructions.items|
      invariant reIx.items == instructions.items[..o]
    {
      reIx.Push(instructions.items[o]);
      o := o + 1;
    }
    assert instructions.items[..o] == instructions.items;
    var msg := Message(payer, blockhash, reIx.items, table);
    var data := rpc.priorityFee(priorityLevel, msg);
    if data == 1 { data := FEE_WHEN_ONE; }
    if data < FLOOR_FEE { data := FLOOR_FEE; }
    fee := data;
  }

  // ---------------------------------------------------------------------
  // The request and its defaults
  // ---------------------------------------------------------------------

  /**
   * The option bag passed to Tx. None is a property left undefined; the
   * instruction array is the caller's own object.
   */
  datatype TxRequest = TxRequest(
    account: Option<Address>,
    instructions: Option<IxList>,
    signers: Option<seq<Keypair>>,
    priority: Option<string>,
    tolerance: Option<real>,
    serialize: Option<bool>,
    encode: Option<bool>,
    compute: Option<bool>,
    fees: Option<bool>,
    table: Option<LookupTable>,
    memo: Option<string>)

  /** The options once defaulted (solotto.js:26-34). */
  datatype Options = Options(
    signers: seq<Keypair>,
    priority: string,
    tolerance: real,
    serialize: bool,
    encode: bool,
    compute: bool,
    fees: bool,
    tables: seq<LookupTable>,
    memo: Option<string>)

  /** The length of the run of '0' characters s starts with. */
  function ZeroRun(s: string): (n: nat)
    ensures n <= |s|
  {
    if s != [] && s[0] == '0' then 1 + ZeroRun(s[1..]) else 0
  }

  predicate AllZeros(s: string) {
    ZeroRun(s) == |s|
  }

  /** Where an exponent part would begin: the first e or E, or the end. */
  function ExponentStart(u: string): (j: nat)
    ensures j <= |u|
  {
    if u == [] || u[0] == 'e' || u[0] == 'E' then 0 else 1 + ExponentStart(u[1..])
  }

  /** An exponent part: e or E, an optional sign and at least one decimal digit. */
  predicate IsExponent(s: string) {
    |s| >= 2 && (s[0] == 'e' || s[0] == 'E')
    && var d := if s[1] == '+' || s[1] == '-' then s[2..] else s[1..];
       d != [] && DigitRun(d, 10) == d
  }

  /** Zeros with at most one point and at least one zero: "0", "00", "0.", ".0", "0.00". */
  predicate IsZeroMantissa(m: string) {
    var k := ZeroRun(m);
    (k == |m| && k > 0) || (k < |m| && m[k] == '.' && AllZeros(m[k + 1..]) && |m| >= 2)
  }

  /** A decimal literal of value zero, optionally signed, optionally with an exponent. */
  predicate IsDecimalZero(t: string) {
    var u := if t != [] && (t[0] == '+' || t[0] == '-') then t[1..] else t;
    var j := ExponentStart(u);
    IsZeroMantissa(u[..j]) && (j == |u| || IsExponent(u[j..]))
  }

  /** A hexadecimal, octal or binary literal of value zero: "0x0", "0o00", "0b0". */
  predicate IsPrefixedZero(t: string) {
    |t| >= 3 && t[0] == '0'
    && (t[1] == 'x' || t[1] == 'X' || t[1] == 'o' || t[1] == 'O' || t[1] == 'b' || t[1] == 'B')
    && AllZeros(t[2..])
  }

  /**
   * `s == false` for a string s: the string converts to the number 0,
   * which holds for the empty or all-white-space string and for every
   * numeral denoting zero. Text whose first non-blank character cannot
   * begin a zero numeral is never loosely false.
   */
  function LooselyFalse(s: string): (b: bool)
    ensures AllSpace(s) ==> b
    ensures TrimStart(s) != [] && TrimStart(s)[0] !in {'0', '.', '+', '-'} ==> !b
  {
    var t := TrimEnd(TrimStart(s));
    t == [] || IsDecimalZero(t) || IsPrefixedZero(t)
  }

  /** Text with no white space at either end is loosely false just when it is a zero numeral. */
  lemma UntrimmedLooselyFalse(s: string)
    requires s != [] && !IsJsSpace(s[0]) && !IsJsSpace(s[|s| - 1])
    ensures LooselyFalse(s) == (IsDecimalZero(s) || IsPrefixedZero(s))
  {
    assert TrimStart(s) == s;
  }

  /** "0", "-0.0" and "0x00" are zero numerals, decimal and hexadecimal. */
  lemma ZeroNumerals()
    ensures IsDecimalZero("0") && IsDecimalZero("-0.0") && IsPrefixedZero("0x00")
  {
    assert ZeroRun("0") == 1 && ExponentStart("0") == 1;
    assert "-0.0"[1..] == "0.0" && "0.0"[2..] == "0";
    assert ZeroRun("0.0") == 1 && ExponentStart("0.0") == 3;
    assert "0.0"[..3] == "0.0" && IsZeroMantissa("0.0");
    assert "0x00"[2..] == "00" && ZeroRun("00") == 2;
  }

  /** "0.5" and "0x10" begin like zero numerals but are not. */
  lemma NonZeroNumerals()
    ensures !IsDecimalZero("0.5") && !IsPrefixedZero("0.5")
    ensures !IsDecimalZero("0x10") && !IsPrefixedZero("0x10")
  {
    assert ExponentStart("0.5") == 3 && "0.5"[..3] == "0.5";
    assert ZeroRun("0.5") == 1 && "0.5"[2..] == "5" && ZeroRun("5") == 0;
    assert ExponentStart("0x10") == 4 && "0x10"[..4] == "0x10";
    assert ZeroRun("0x10") == 1 && "0x10"[2..] == "10" && ZeroRun("10") == 0;
  }

  lemma PlainZeroIsLooselyFalse()
    ensures LooselyFalse("0")
  {
    UntrimmedLooselyFalse("0");
    ZeroNumerals();
  }

  lemma SignedZeroIsLooselyFalse()
    ensures LooselyFalse("-0.0")
  {
    UntrimmedLooselyFalse("-0.0");
    ZeroNumerals();
  }

  lemma HexZeroIsLooselyFalse()
    ensures LooselyFalse("0x00")
  {
    UntrimmedLooselyFalse("0x00");
    ZeroNumerals();
  }

  /** Zero numerals of each kind compare `== false`. */
  lemma ZeroNumeralsAreLooselyFalse()
    ensures LooselyFalse("0") && LooselyFalse("-0.0") && LooselyFalse("0x00")
  {
    PlainZeroIsLooselyFalse();
    SignedZeroIsLooselyFalse();
    HexZeroIsLooselyFalse();
  }

  /** Numerals of values other than zero do not, though they begin with 0. */
  lemma NonZeroNumeralsAreKept()
    ensures !LooselyFalse("0.5") && !LooselyFalse("0x10")
  {
    UntrimmedLooselyFalse("0.5");
    UntrimmedLooselyFalse("0x10");
    NonZeroNumerals();
  }

  /** "1" and the word "false" are not loosely false: neither converts to 0. */
  lemma OneAndWordFalseAreKept()
    ensures !LooselyFalse("1") && !LooselyFalse("false")
  {
    TrimStartNoSpace("1");
    TrimStartNoSpace("false");
  }

  /**
   * The defaulting of solotto.js:26-34: empty signer lists, a zero tolerance
   * and a loosely false memo count as absent; serialize and encode must be
   * exactly true; compute and fees default to true; the one table becomes a
   * one-element list.
   */
  function ResolveOptions(req: TxRequest): (o: Options)
    ensures o.signers == [] <==> req.signers.None? || req.signers.value == []
    ensures o.signers == (if req.signers.Some? then req.signers.value else [])
    ensures o.priority == (if req.priority.Some? then req.priority.value else "Low")
    ensures o.tolerance == (if req.tolerance.None? || req.tolerance.value == 0.0 then 1.1 else req.tolerance.value)
    ensures o.serialize <==> req.serialize == Some(true)
    ensures o.encode <==> req.encode == Some(true)
    ensures o.compute <==> req.compute != Some(false)
    ensures o.fees <==> req.fees != Some(false)
    ensures o.tables == (if req.table.Some? then [req.table.value] else [])
    ensures o.memo.Some? <==> req.memo.Some? && !LooselyFalse(req.memo.value)
    ensures o.memo.Some? ==> o.memo == req.memo
  {
    Options(
      if req.signers.None? || req.signers.value == [] then [] else req.signers.value,
      if req.priority.None? then "Low" else req.priority.value,
      if req.tolerance.None? || req.tolerance.value == 0.0 then 1.1 else req.tolerance.value,
      req.serialize == Some(true),
      req.encode == Some(true),
      req.compute != Some(false),
      req.fees != Some(false),
      if req.table.None? then [] else [req.table.value],
      if req.memo.Some? && !LooselyFalse(req.memo.value) then req.memo else None)
  }

  /** A memo that survives the defaults is never blank and never a zero numeral such as "0" or "0x00". */
  lemma ResolvedMemoIsNotFalse(req: TxRequest)
    ensures ResolveOptions(req).memo.Some? ==> !AllSpace(ResolveOptions(req).memo.value)
    ensures req.memo == Some("0") || req.memo == Some("-0.0") || req.memo == Some("0x00") ==> ResolveOptions(req).memo.None?
  {
    ZeroNumeralsAreLooselyFalse();
  }

  /** The one priority rename (solotto.js:37). */
  function NormalizePriority(p: string): (q: string)
    ensures q == (if p == "Extreme" then "VeryHigh" else p)
    ensures q != "Extreme"
  {
    if p == "Extreme" then "VeryHigh" else p
  }

  // ---------------------------------------------------------------------
  // Tx
  // ---------------------------------------------------------------------

  /** The transaction in the form asked for: the object, its bytes, or base64 text. */
  datatype TxForm = Object(tx: Transaction) | Serialized(bytes: seq<byte>) | Encoded(text: string)

  /**
   * What Tx settles with: an object with only a message, the simulation's
   * error object, the success object, or a rejected promise.
   */
  datatype TxResponse =
    | Invalid(message: string)
    | SimulationFailed(status: string, message: string, details: string, logs: seq<string>)
    | Built(status: string, message: string, transaction: TxForm)
    | Rejected(reason: string)

  /** The `status` property of the response, None when it has none. */
  function StatusOf(r: TxResponse): Option<string> {
    match r
    case Invalid(_) => None
    case SimulationFailed(s, _, _, _) => Some(s)
    case Built(s, _, _) => Some(s)
    case Rejected(_) => None
  }

  const SIMULATION_FAILED: string := "there was an error when simulating the transaction"
  const NOT_A_BUFFER: string := "TypeError: the first argument must be a string, Buffer, ArrayBuffer, Array or array-like object"

  /** The response, the caller's array afterwards, and the calls made. */
  datatype TxResult = TxResult(response: TxResponse, callerList: seq<Ix>, calls: seq<RpcCall>)

  /** The instruction Tx appends for a memo: signed by the account. */
  function MemoIxs(memo: Option<string>, account: Address): seq<Ix> {
    if memo.Some? then [Memo(memo.value, [account])] else []
  }

  /** The form chosen at solotto.js:61-68; encoding an unserialized transaction throws. */
  function Finish(rpc: Rpc, o: Options, msg: Message): TxResponse {
    var tx := Transaction(msg, o.signers);
    if o.serialize then
      var bytes := rpc.serialize(tx);
      Built("ok", "success", if o.encode then Encoded(rpc.base64(bytes)) else Serialized(bytes))
    else if o.encode then Rejected(NOT_A_BUFFER)
    else Built("ok", "success", Object(tx))
  }

  /** Tx from the fee step on, given the list after compute sizing. */
  function AfterCompute(rpc: Rpc, o: Options, wallet: Address, list: seq<Ix>, calls: seq<RpcCall>): TxResult {
    var priority := NormalizePriority(o.priority);
    if o.fees then
      var fee := FeeCorrection(rpc.priorityFee(priority, Message(wallet, rpc.blockhash, list, o.tables)));
      var list' := [SetPrice(fee)] + list;
      TxResult(Finish(rpc, o, Message(wallet, rpc.blockhash, list', o.tables)), list',
               calls + [GetPriorityFeeEstimate(priority)])
    else
      TxResult(Finish(rpc, o, Message(wallet, rpc.blockhash, list, o.tables)), list, calls)
  }

  /**
   * Tx (solotto.js:22-74) as one value: the response, the caller's
   * instruction array as Tx leaves it, and the network calls made in order.
   */
  function TxOutcome(req: TxRequest, caller: seq<Ix>, rpc: Rpc): TxResult {
    if req.account.None? then TxResult(Invalid("missing account"), caller, [])
    else if req.instructions.None? then TxResult(Invalid("missing instructions"), caller, [])
    else
      var o := ResolveOptions(req);
      var wallet := req.account.value;
      AfterMemo(rpc, o, wallet, caller + MemoIxs(o.memo, wallet))
  }

  /** Tx from the compute step on, given the list after the memo step. */
  function AfterMemo(rpc: Rpc, o: Options, wallet: Address, list: seq<Ix>): TxResult {
    if o.compute then
      var cu := ComputeOutcome(rpc, wallet, list, o.tolerance, rpc.blockhash, o.tables);
      var calls := [GetLatestBlockhash, SimulateTransaction];
      if cu.SimError? then TxResult(SimulationFailed(cu.status, SIMULATION_FAILED, cu.details, cu.logs), list, calls)
      else AfterCompute(rpc, o, wallet, [SetLimit(cu.units)] + list, calls)
    else
      AfterCompute(rpc, o, wallet, list, [GetLatestBlockhash])
  }

  function Frame(req: TxRequest): set<object> {
    if req.instructions.Some? then {req.instructions.value} else {}
  }

  /**
   * Tx (solotto.js:22-74): validates the request, then appends the memo to
   * the caller's own array and puts the compute limit and the price in
   * front of it, so the caller sees those changes.
   */
  method Tx(req: TxRequest, rpc: Rpc) returns (r: TxResponse, calls: seq<RpcCall>)
    modifies Frame(req)
    ensures req.instructions.None? ==> TxOutcome(req, [], rpc) == TxResult(r, [], calls)
    ensures req.instructions.Some? ==>
      TxOutcome(req, old(req.instructions.value.items), rpc) == TxResult(r, req.instructions.value.items, calls)
  {
    calls := [];
    if req.account.None? { return Invalid("missing account"), calls; }
    var account := req.account.value;
    if req.instructions.None? { return Invalid("missing instructions"), calls; }
    var instructions := req.instructions.value;
    var o := ResolveOptions(req);
    var wallet := account;
    var blockhash := rpc.blockhash;
    calls := calls + [GetLatestBlockhash];
    var priority := o.priority;
    if priority == "Extreme" { priority := "VeryHigh"; }
    ghost var caller := instructions.items;
    if o.memo.Some? {
      var memoIx := Memo(o.memo.value, [account]);
      instructions.Push(memoIx);
    }
    assert instructions.items == caller + MemoIxs(o.memo, wallet);
    r, calls := SizeAndFinish(rpc, o, wallet, priority, instructions, calls);
  }

  /** Tx from the compute step on (solotto.js:47-73): size by simulation, limit in front, then the rest. */
  method SizeAndFinish(rpc: Rpc, o: Options, wallet: Address, priority: string, instructions: IxList,
                       callsIn: seq<RpcCall>) returns (r: TxResponse, calls: seq<RpcCall>)
    requires priority == NormalizePriority(o.priority) && callsIn == [GetLatestBlockhash]
    modifies instructions
    ensures TxResult(r, instructions.items, calls) == AfterMemo(rpc, o, wallet, old(instructions.items))
  {
    calls := callsIn;
    if o.compute {
      var cu := Compute(rpc, wallet, instructions, o.tolerance, rpc.blockhash, o.tables);
      calls := calls + [SimulateTransaction];
      if cu.SimError? {
        return SimulationFailed(cu.status, SIMULATION_FAILED, cu.details, cu.logs), calls;
      }
      instructions.Unshift(SetLimit(cu.units));
    }
    r, calls := AssembleAndFinish(rpc, o, wallet, priority, instructions, calls);
  }

  /** Tx from the fee step on (solotto.js:54-73): price in front, compile, sign, serialize, encode. */
  method AssembleAndFinish(rpc: Rpc, o: Options, wallet: Address, priority: string, instructions: IxList,
                           callsIn: seq<RpcCall>) returns (r: TxResponse, calls: seq<RpcCall>)
    requires priority == NormalizePriority(o.priority)
    modifies instructions
    ensures TxResult(r, instructions.items, calls) == AfterCompute(rpc, o, wallet, old(instructions.items), callsIn)
  {
    calls := callsIn;
    var blockhash := rpc.blockhash;
    if o.fees {
      var getPriority := Estimate(rpc, wallet, priority, instructions, blockhash, o.tables);
      calls := calls + [GetPriorityFeeEstimate(priority)];
      instructions.Unshift(SetPrice(getPriority));
    }
    var message := Message(wallet, blockhash, instructions.items, o.tables);
    var tx := Transaction(message, []);
    if o.signers != [] {
      tx := Transaction(message, o.signers);
    }
    var form := Object(tx);
    if o.serialize {
      form := Serialized(rpc.serialize(tx));
    }
    if o.encode {
      if !form.Serialized? { return Rejected(NOT_A_BUFFER), calls; }
      form := Encoded(rpc.base64(form.bytes));
    }
    r := Built("ok", "success", form);
  }

  // ---------------------------------------------------------------------
  // Properties of Tx
  // ---------------------------------------------------------------------

  /**
   * A request without an account or without instructions gets an object
   * holding only a message, with no status, and no network call is made.
   */
  lemma TxValidation(req: TxRequest, caller: seq<Ix>, rpc: Rpc)
    requires req.account.None? || req.instructions.None?
    ensures TxOutcome(req, caller, rpc).calls == []
    ensures TxOutcome(req, caller, rpc).callerList == caller
    ensures StatusOf(TxOutcome(req, caller, rpc).response) == None
    ensures TxOutcome(req, caller, rpc).response
            == Invalid(if req.account.None? then "missing account" else "missing instructions")
  {
  }

  /**
   * With compute, fees and a memo, and a simulation that succeeds, the
   * array ends up as the price, the limit, the caller's instructions and
   * the memo, in that order: the limit is the sized units of the list with
   * the memo, the price the corrected estimate for the list that already
   * holds the limit.
   */
  lemma TxAssemblyOrder(req: TxRequest, caller: seq<Ix>, rpc: Rpc, wallet: Address, memo: string, cu: int, fee: int)
    requires req.account == Some(wallet) && req.instructions.Some?
    requires ResolveOptions(req).compute && ResolveOptions(req).fees && ResolveOptions(req).memo == Some(memo)
    requires ComputeOutcome(rpc, wallet, caller + [Memo(memo, [wallet])], ResolveOptions(req).tolerance,
                            rpc.blockhash, ResolveOptions(req).tables) == Units(cu)
    requires fee == FeeCorrection(rpc.priorityFee(NormalizePriority(ResolveOptions(req).priority),
                      Message(wallet, rpc.blockhash, [SetLimit(cu)] + (caller + [Memo(memo, [wallet])]),
                              ResolveOptions(req).tables)))
    ensures TxOutcome(req, caller, rpc).callerList == [SetPrice(fee), SetLimit(cu)] + (caller + [Memo(memo, [wallet])])
  {
    var o := ResolveOptions(req);
    var withMemo := caller + [Memo(memo, [wallet])];
    assert caller + MemoIxs(o.memo, wallet) == withMemo;
    assert TxOutcome(req, caller, rpc) == AfterMemo(rpc, o, wallet, withMemo);
    SizedThenPriced(rpc, o, wallet, withMemo, cu, fee);
  }

  /** With compute and fees on, the list gains the limit and then the price in front. */
  lemma SizedThenPriced(rpc: Rpc, o: Options, wallet: Address, list: seq<Ix>, cu: int, fee: int)
    requires o.compute && o.fees
    requires ComputeOutcome(rpc, wallet, list, o.tolerance, rpc.blockhash, o.tables) == Units(cu)
    requires fee == FeeCorrection(rpc.priorityFee(NormalizePriority(o.priority),
                      Message(wallet, rpc.blockhash, [SetLimit(cu)] + list, o.tables)))
    ensures AfterMemo(rpc, o, wallet, list).callerList == [SetPrice(fee), SetLimit(cu)] + list
  {
    assert [SetPrice(fee)] + ([SetLimit(cu)] + list) == [SetPrice(fee), SetLimit(cu)] + list;
  }

  /** An Extreme priority reaches the estimator as VeryHigh. */
  lemma TxExtremeIsVeryHigh(req: TxRequest, caller: seq<Ix>, rpc: Rpc)
    requires req.account.Some? && req.instructions.Some? && req.priority == Some("Extreme")
    requires ResolveOptions(req).fees
    requires ResolveOptions(req).compute ==>
      rpc.simulate(SimulationMessage(req.account.value, rpc.blockhash,
        caller + MemoIxs(ResolveOptions(req).memo, req.account.value), ResolveOptions(req).tables)).err.None?
    ensures GetPriorityFeeEstimate("VeryHigh") in TxOutcome(req, caller, rpc).calls
    ensures GetPriorityFeeEstimate("Extreme") !in TxOutcome(req, caller, rpc).calls
  {
  }

  /**
   * When compute is on and the simulation fails, Tx returns Compute's error
   * object with the message replaced, status "error", the simulation's
   * error and logs, and makes no fee estimate.
   */
  lemma TxSimulationError(req: TxRequest, caller: seq<Ix>, rpc: Rpc)
    requires req.account.Some? && req.instructions.Some? && ResolveOptions(req).compute
    requires rpc.simulate(SimulationMessage(req.account.value, rpc.blockhash,
               caller + MemoIxs(ResolveOptions(req).memo, req.account.value), ResolveOptions(req).tables)).err.Some?
    ensures var sim := rpc.simulate(SimulationMessage(req.account.value, rpc.blockhash,
               caller + MemoIxs(ResolveOptions(req).memo, req.account.value), ResolveOptions(req).tables));
      TxOutcome(req, caller, rpc).response == SimulationFailed("error", SIMULATION_FAILED, sim.err.value, sim.logs)
    ensures StatusOf(TxOutcome(req, caller, rpc).response) == Some("error")
    ensures TxOutcome(req, caller, rpc).calls == [GetLatestBlockhash, SimulateTransaction]
  {
  }

  /**
   * Every valid request whose simulation (if any) succeeds and that does
   * not ask to encode an unserialized transaction settles with status
   * "ok" and message "success".
   */
  lemma TxSucceeds(req: TxRequest, caller: seq<Ix>, rpc: Rpc)
    requires req.account.Some? && req.instructions.Some?
    requires ResolveOptions(req).compute ==>
      rpc.simulate(SimulationMessage(req.account.value, rpc.blockhash,
        caller + MemoIxs(ResolveOptions(req).memo, req.account.value), ResolveOptions(req).tables)).err.None?
    requires ResolveOptions(req).encode ==> ResolveOptions(req).serialize
    ensures TxOutcome(req, caller, rpc).response.Built?
    ensures StatusOf(TxOutcome(req, caller, rpc).response) == Some("ok")
    ensures TxOutcome(req, caller, rpc).response.message == "success"
    ensures TxOutcome(req, caller, rpc).calls[0] == GetLatestBlockhash
  {
  }

  /**
   * `mid` occurs in `l` after at most `front` elements, with at most `back`
   * elements after it.
   */
  predicate Surrounds(l: seq<Ix>, mid: seq<Ix>, front: nat, back: nat) {
    exists k :: 0 <= k <= front && k <= |l| && |mid| <= |l[k..]| <= |mid| + back && l[k..][..|mid|] == mid
  }

  /** The fee step only ever puts one instruction in front of the list. */
  lemma AfterComputePrepends(rpc: Rpc, o: Options, wallet: Address, list: seq<Ix>, calls: seq<RpcCall>)
    returns (pre: seq<Ix>)
    ensures AfterCompute(rpc, o, wallet, list, calls).callerList == pre + list && |pre| <= 1
  {
    var res := AfterCompute(rpc, o, wallet, list, calls);
    if o.fees {
      pre := [res.callerList[0]];
    } else {
      pre := [];
    }
  }

  /**
   * Whatever the outcome, a valid request only ever adds to the caller's
   * array: at most two instructions in front, at most the memo behind, and
   * the caller's instructions in order between them.
   */
  lemma TxKeepsCallerInstructions(req: TxRequest, caller: seq<Ix>, rpc: Rpc)
    requires req.account.Some? && req.instructions.Some?
    ensures Surrounds(TxOutcome(req, caller, rpc).callerList, caller, 2, 1)
  {
    var pre := TxPrefix(req, caller, rpc);
    assert TxOutcome(req, caller, rpc).callerList[|pre|..][..|caller|] == caller;
  }

  /** The instructions Tx puts in front of the caller's (the limit, the price, or both). */
  lemma TxPrefix(req: TxRequest, caller: seq<Ix>, rpc: Rpc) returns (pre: seq<Ix>)
    requires req.account.Some? && req.instructions.Some?
    ensures TxOutcome(req, caller, rpc).callerList
            == pre + (caller + MemoIxs(ResolveOptions(req).memo, req.account.value))
    ensures |pre| <= 2
  {
    var o := ResolveOptions(req);
    var wallet := req.account.value;
    var list := caller + MemoIxs(o.memo, wallet);
    if o.compute {
      var cu := ComputeOutcome(rpc, wallet, list, o.tolerance, rpc.blockhash, o.tables);
      if cu.SimError? {
        pre := [];
        assert TxOutcome(req, caller, rpc).callerList == list;
      } else {
        var l2 := [SetLimit(cu.units)] + list;
        var calls := [GetLatestBlockhash, SimulateTransaction];
        assert TxOutcome(req, caller, rpc) == AfterCompute(rpc, o, wallet, l2, calls);
        var p1 := AfterComputePrepends(rpc, o, wallet, l2, calls);
        pre := p1 + [SetLimit(cu.units)];
        assert p1 + l2 == pre + list;
      }
    } else {
      assert TxOutcome(req, caller, rpc) == AfterCompute(rpc, o, wallet, list, [GetLatestBlockhash]);
      pre := AfterComputePrepends(rpc, o, wallet, list, [GetLatestBlockhash]);
    }
  }

  /**
   * Compute sizes a copy: the caller's array is as it was, while Tx,
   * given a memo, lengthens the very array the caller passed.
   */
  method AliasingDemo(rpc: Rpc, account: Address, memo: string) returns (afterCompute: seq<Ix>, afterTx: seq<Ix>)
    requires !LooselyFalse(memo)
    ensures afterCompute == []
    ensures |afterTx| >= 1 && Memo(memo, [account]) in afterTx
  {
    var list := new IxList([]);
    var _ := Compute(rpc, account, list, 1.1, rpc.blockhash, []);
    afterCompute := list.items;
    var req := TxRequest(Some(account), Some(list), None, None, None, None, None, Some(false), Some(false), None, Some(memo));
    var _, _ := Tx(req, rpc);
    afterTx := list.items;
    var o := ResolveOptions(req);
    assert o.memo == Some(memo) && !o.compute && !o.fees;
    assert MemoIxs(o.memo, account) == [Memo(memo, [account])];
    assert TxOutcome(req, [], rpc).callerList == [Memo(memo, [account])];
  }
}
