// What gets logged (tracer/dep_tracer/logger.go): the logger definition read
// from the configuration, the logging context, and which formulas an event
// carries.  Building the short formulas needs the formula database, so the
// `Log*` entry points are methods of `SimpleDB` (simpledb.dfy); this module
// owns the definition, the context, the selection rule and the event log.
module Logging {
  import opened Common
  import opened Formulas

  /** The settings a `Logger` keeps, copied out of a `LoggerDefinition`. */
  datatype LoggerSettings = LoggerSettings(
    opcodesShort: set<Byte>, opcodesFull: set<Byte>,
    finalSlotsShort: bool, finalSlotsFull: bool,
    codesShort: bool, codesFull: bool,
    returnDataShort: bool, returnDataFull: bool,
    logsShort: bool, logsFull: bool,
    solViewFinalSlots: bool)

  class LoggerDefinition {
    var opcodesShort: set<Byte>
    var opcodesFull: set<Byte>
    var finalSlotsShort: bool
    var finalSlotsFull: bool
    var codesShort: bool
    var codesFull: bool
    var returnDataShort: bool
    var returnDataFull: bool
    var logsShort: bool
    var logsFull: bool
    var solViewFinalSlots: bool

    /** `NewLoggerDefinition`: no opcode selected and every flag off. */
    constructor ()
      ensures opcodesShort == {} && opcodesFull == {}
      ensures !finalSlotsShort && !finalSlotsFull && !codesShort && !codesFull
      ensures !returnDataShort && !returnDataFull && !logsShort && !logsFull && !solViewFinalSlots
    {
      opcodesShort := {};
      opcodesFull := {};
      finalSlotsShort := false;
      finalSlotsFull := false;
      codesShort := false;
      codesFull := false;
      returnDataShort := false;
      returnDataFull := false;
      logsShort := false;
      logsFull := false;
      solViewFinalSlots := false;
    }

    method AddOpcdesFull(opcodes: seq<Byte>)
      modifies this`opcodesFull
      ensures forall op :: OpcodeFull(op) <==> op in old(opcodesFull) || op in opcodes
    {
      var i := 0;
      while i < |opcodes|
        invariant 0 <= i <= |opcodes|
        invariant opcodesFull == old(opcodesFull) + set k | 0 <= k < i :: opcodes[k]
      {
        opcodesFull := opcodesFull + {opcodes[i]};
        i := i + 1;
      }
    }

    method AddOpcdesShort(opcodes: seq<Byte>)
      modifies this`opcodesShort
      ensures forall op :: OpcodeShort(op) <==> op in old(opcodesShort) || op in opcodes
    {
      var i := 0;
      while i < |opcodes|
        invariant 0 <= i <= |opcodes|
        invariant opcodesShort == old(opcodesShort) + set k | 0 <= k < i :: opcodes[k]
      {
        opcodesShort := opcodesShort + {opcodes[i]};
        i := i + 1;
      }
    }

    predicate OpcodeFull(op: Byte)
      reads this
    {
      op in opcodesFull
    }

    predicate OpcodeShort(op: Byte)
      reads this
    {
      op in opcodesShort
    }

    /** The value `NewLogger` copies into the logger. */
    function Settings(): (s: LoggerSettings)
      reads this
      ensures forall op :: op in s.opcodesFull <==> OpcodeFull(op)
      ensures forall op :: op in s.opcodesShort <==> OpcodeShort(op)
    {
      LoggerSettings(opcodesShort, opcodesFull, finalSlotsShort, finalSlotsFull, codesShort, codesFull,
                     returnDataShort, returnDataFull, logsShort, logsFull, solViewFinalSlots)
    }
  }

  /** `LoggerContext`; a block that was never entered is `None` (Go's nil `*big.Int`). */
  datatype LoggerContext = LoggerContext(
    block: Option<int>, timestamp: U64, origin: Address, txHash: Hash,
    address: Address, addressVersion: U64, codeAddress: Address,
    codeHash: Hash, initcodeHash: Hash)

  const EMPTY_CONTEXT: LoggerContext :=
    LoggerContext(None, 0, ZERO_ADDRESS, ZERO_HASH, ZERO_ADDRESS, 0, ZERO_ADDRESS, ZERO_HASH, ZERO_HASH)

  /** One `## INFO` record: the event, the formulas per kind ("full" or a definition's name), the context. */
  datatype LogEvent = LogEvent(
    eventType: string, addr: Address, addrVersion: U64, codeAddr: Address,
    outputs: map<string, seq<Formula>>, context: LoggerContext)

  /**
   * The map `logFormulasWithShorts` builds: "full" when enabled, then one
   * entry per shorterner when enabled, in order, so a later name overwrites
   * an earlier entry with the same name.
   */
  function Outputs(fullEnabled: bool, shortEnabled: bool, formulas: seq<Formula>,
                   names: seq<string>, shortFormulas: seq<seq<Formula>>): (r: map<string, seq<Formula>>)
    requires |names| == |shortFormulas|
    decreases |names|
  {
    if !shortEnabled || |names| == 0 then
      (if fullEnabled then map["full" := formulas] else map[])
    else
      Outputs(fullEnabled, shortEnabled, formulas, names[..|names| - 1], shortFormulas[..|names| - 1])
        [names[|names| - 1] := shortFormulas[|names| - 1]]
  }

  /**
   * The keys are "full" exactly when full logging is on (or a definition is
   * named "full"), and the definition names exactly when short logging is
   * on; with both off the map is empty, so nothing is written.
   */
  lemma {:induction false} OutputsKeys(fullEnabled: bool, shortEnabled: bool, formulas: seq<Formula>,
                                       names: seq<string>, shortFormulas: seq<seq<Formula>>)
    requires |names| == |shortFormulas|
    ensures var m := Outputs(fullEnabled, shortEnabled, formulas, names, shortFormulas);
      && (forall k :: k in m <==> (fullEnabled && k == "full") || (shortEnabled && k in names))
      && (!fullEnabled && !shortEnabled ==> m == map[])
    decreases |names|
  {
    if shortEnabled && |names| > 0 {
      var n := |names| - 1;
      OutputsKeys(fullEnabled, shortEnabled, formulas, names[..n], shortFormulas[..n]);
      var m0 := Outputs(fullEnabled, shortEnabled, formulas, names[..n], shortFormulas[..n]);
      var m := Outputs(fullEnabled, shortEnabled, formulas, names, shortFormulas);
      assert m == m0[names[n] := shortFormulas[n]];
      assert names == names[..n] + [names[n]];
      forall k
        ensures k in m <==> (fullEnabled && k == "full") || k in names
      {
        assert k in names <==> k in names[..n] || k == names[n];
      }
    }
  }

  /**
   * "full" carries the formulas unless a definition has that name, and each
   * name carries the short formulas of its last definition.
   */
  lemma {:induction false} OutputsValues(fullEnabled: bool, shortEnabled: bool, formulas: seq<Formula>,
                                         names: seq<string>, shortFormulas: seq<seq<Formula>>)
    requires |names| == |shortFormulas|
    ensures var m := Outputs(fullEnabled, shortEnabled, formulas, names, shortFormulas);
      && (fullEnabled && !(shortEnabled && "full" in names) ==> "full" in m && m["full"] == formulas)
      && (forall i :: 0 <= i < |names| && shortEnabled && names[i] !in names[i + 1..] ==>
            names[i] in m && m[names[i]] == shortFormulas[i])
    decreases |names|
  {
    if shortEnabled && |names| > 0 {
      var n := |names| - 1;
      OutputsValues(fullEnabled, shortEnabled, formulas, names[..n], shortFormulas[..n]);
      var m := Outputs(fullEnabled, shortEnabled, formulas, names, shortFormulas);
      forall i | 0 <= i < |names| && names[i] !in names[i + 1..]
        ensures names[i] in m && m[names[i]] == shortFormulas[i]
      {
        if i < n {
          assert names[i + 1..] == names[..n][i + 1..] + [names[n]];
          assert names[..n][i] == names[i];
          assert shortFormulas[..n][i] == shortFormulas[i];
        }
      }
      if fullEnabled && "full" !in names {
        assert names == names[..n] + [names[n]];
      }
    }
  }

  /** The records `logFormulasWithShorts` writes for an event: it, unless it carries nothing. */
  function Written(e: LogEvent): (r: seq<LogEvent>)
    ensures r == [] <==> |e.outputs| == 0
  {
    if |e.outputs| > 0 then [e] else []
  }

  /** The three events that log the dependency formula of a byte value. */
  datatype ValueEvent = ReturnData | FinalCode | FinalSlot

  /** The event type each of them writes. */
  function EventName(e: ValueEvent): string
  {
    match e
    case ReturnData => "return"
    case FinalCode => "final_code"
    case FinalSlot => "final_slot"
  }

  /** The (full, short) switches each of them reads. */
  function Switches(s: LoggerSettings, e: ValueEvent): (bool, bool)
  {
    match e
    case ReturnData => (s.returnDataFull, s.returnDataShort)
    case FinalCode => (s.codesFull, s.codesShort)
    case FinalSlot => (s.finalSlotsFull, s.finalSlotsShort)
  }

  /** A `LOG0`..`LOG4` event as the transient DB keeps it (transientdb.go:11-17). */
  datatype Log = Log(addr: Address, addrVersion: U64, codeAddr: Address, data: Formula, topics: seq<Formula>)

  class Logger {
    const toLog: LoggerSettings
    var context: LoggerContext
    /** The `## INFO` records written so far. */
    var written: seq<LogEvent>

    /** `NewLogger`: a copy of the settings and an empty context. */
    constructor (toLog: LoggerSettings)
      ensures this.toLog == toLog && context == EMPTY_CONTEXT && written == []
    {
      this.toLog := toLog;
      context := EMPTY_CONTEXT;
      written := [];
    }

    method EnterContext(block: int, timestamp: U64, origin: Address, txHash: Hash)
      modifies this`context
      ensures context == old(context).(block := Some(block), timestamp := timestamp, origin := origin, txHash := txHash)
    {
      context := context.(block := Some(block), timestamp := timestamp, origin := origin, txHash := txHash);
    }

    method SetContractAddress(address: Address, addressVersion: U64, codeAddress: Address, codeHash: Hash, initcodeHash: Hash)
      modifies this`context
      ensures context == old(context).(address := address, addressVersion := addressVersion,
                                       codeAddress := codeAddress, codeHash := codeHash, initcodeHash := initcodeHash)
    {
      context := context.(address := address, addressVersion := addressVersion,
                          codeAddress := codeAddress, codeHash := codeHash, initcodeHash := initcodeHash);
    }

    /** `logFormulas`, less the printing: records the event with the current context. */
    method WriteEvent(eventType: string, addr: Address, addrVersion: U64, codeAddr: Address, outputs: map<string, seq<Formula>>)
      modifies this`written
      ensures written == old(written) + [LogEvent(eventType, addr, addrVersion, codeAddr, outputs, context)]
    {
      written := written + [LogEvent(eventType, addr, addrVersion, codeAddr, outputs, context)];
    }
  }
}
