# tracevm dependency tracer, modelled in Dafny

tracevm records, for every value an EVM transaction computes, the formula
it was computed from. Each stack word, memory byte and storage slot holds a
dependency byte: a formula hash and an index into that formula's result.
The interpreter reports every step through a bridge. The Go tracer replays
the step on its own formula stack, formula memory and storage overlay. It
interns every new formula in a content-addressed formula database. Where a
formula's result is known and it is not protected by a definition (the
crypto opcodes are protected), it replaces the formula by a short constant.
When the transaction ends, it commits the formulas that reach the logs and
the return data, and the formulas those depend on, into key-value stores.

This project models, one module per source file:

- **The formula machine** (`tracer/dep_tracer/`):
  - the formula and dependency-byte values, with their binary layouts;
  - the formula stack and the formula memory;
  - the shortening of formulas with known results;
  - the simple formula database with its caches and commits;
  - the storage overlay and the transient transaction state, with its frames and logs;
  - the per-opcode and precompile handles, and the dispatch of a step to its handle;
  - the logger, the Solidity view of storage slots and the RLP address helpers.
- **The Go consumers** that turn interpreter hooks into steps:
  - `handler.go`: the handler of one transaction;
  - `dep.go`: the live tracer;
  - `libdep.go` and `c_api.go`: the cgo entry points, with the C layouts of stacks, memories and addresses.
- **The two Rust bridges**:
  - `foundry/tracevm/src/lib.rs`: the call-depth session machine, the nonce and code prefetch cells and the marshalling of the interpreter's state;
  - `tracer/extra/mod_foundry.rs`: the Foundry counterpart.

Modelling conventions:

- A Go `panic` or a Rust `panic!` is a `Fail` result, or `ok == false` from a method.
- A `uint64` is a `U64` in `[0, 2^64)`; its wrap-around is written out with `Add64` and `Sub64`.
- The hash functions (SHA-256 and Keccak-256), the opcode classification and the interpreter are parameters.
- Key-value engines are maps, and only their `Get` is modelled.
- A class keeps the fields the source updates in place. Its methods are proved against functions on values: the `Tx` value of a transaction, the formula stack as a sequence, the overlay maps.

The sources disagree with each other in several places:

- `tracer/dep_tracer/handler.go:70-76` passes five arguments to `SetupDB`, which `tracer/dep_tracer/global.go:9` declares with four. The model follows `global.go`, and the handler's `PastUnknown` setting is not modelled.
- `tracer/dep_tracer/op_handlers.go:433`, `:1064`, `:1167`, `:1372`, `:1402`, `:1432` and `:1462` set a `Code:` field on `DataExtCodeSize`, `DataExtCodeHash`, `DataExtCodeCopy` and `DataCallStart`. The structs at `tracer/dep_tracer/json_marshal_common.go:134-142`, `:158-163` and `:246-252` have no such field. The model follows the structs: the records carry no code, and the handler's `GetCode` read of the state database stays a query (`OpHandlers.Query`), whose answer the code-reading handles take through the overlay.
- `StateDB` is declared twice in one package: at `tracer/dep_tracer/constants.go:12` with `GetNonce` alone, and at `tracer/dep_tracer/handler.go:95` with `GetNonce` and `GetCode`. The model follows `handler.go`.

Other places where the code does not do what it evidently means are listed under "## Findings". The model states each one as written, and the rest of the model uses the corrected reading.

## Model

| member | source | states |
|---|---|---|
| Common.DBGet | tracer/dep_tracer/kvdb.go:46-60 | a present key yields its value; a missing key yields `None` when optional and a failure ("key not found") otherwise |
| Common.BE | tracer/dep_tracer/formula.go:51 | big-endian encoding of width `n`, keeping the low `8n` bits |
| Common.FromBEOfBE | tracer/dep_tracer/formula.go:34 | decoding a big-endian encoding gives back the value modulo `256^n` |
| Common.BEOfFromBE | tracer/dep_tracer/formula.go:34 | encoding a decoded byte string gives back the bytes |
| Common.BEInjective | tracer/dep_tracer/formula.go:51 | two byte strings of one width are equal exactly when their values are |
| Common.BE64 | tracer/dep_tracer/formula.go:51 | the eight-byte `AppendUint64` layout |
| Common.Bytes32Decodes | tracer/dep_tracer/global.go:116 | the 32-byte form of a word decodes to that word |
| Common.WordToAddressIsLow | tracer/dep_tracer/global.go:122 | the address of a word is the last 20 of its 32 big-endian bytes |
| Common.ClampU64 | tracer/dep_tracer/global.go:204-207 | a word at most `2^64-1` is kept, a larger one becomes `2^64-1` |
| Common.LowU64 | tracer/dep_tracer/op_handlers.go:198 | the low 64 bits of a word |
| Common.Flatten | tracer/dep_tracer/formula.go:54-56 | the concatenation of 32-byte hashes has 32 bytes per hash |
| Common.FlattenAt | tracer/dep_tracer/formula.go:54-56 | the bytes at `32*i .. 32*i+32` of a flattened list are hash `i` |
| Common.ChunksOfFlatten | tracer/dep_tracer/formula.go:40-43 | splitting a flattened hash list into 32-byte chunks gives the list back |
| DepBytes.InitZeroFormula | tracer/dep_tracer/constants.go:8 | the init-zero constant: opcode `OPInitZero`, result `[0]`, no operands, hashed |
| DepBytes.ZeroFormula | tracer/dep_tracer/constants.go:9 | the zero constant: opcode `OPConstant`, result `[0]`, no operands, hashed |
| DepBytes.Bin | tracer/dep_tracer/depbyte.go:23-28 | a byte record encodes to exactly 40 bytes |
| DepBytes.FromBin | tracer/dep_tracer/depbyte.go:14-21 | decoding succeeds exactly when at least 40 bytes are given |
| DepBytes.BinRoundTrip | tracer/dep_tracer/depbyte.go:14-28 | decoding the encoding of a byte record gives the record back |
| DepBytes.BinInjective | tracer/dep_tracer/depbyte.go:23-28 | distinct byte records have distinct encodings |
| DepBytes.InitDEPBytes | tracer/dep_tracer/depbyte.go:30-37 | `size` copies of the init-zero byte (position 0, init-zero hash) |
| DepBytes.FormulaDEPBytes | tracer/dep_tracer/depbyte.go:39-46 | one byte per result byte; byte `i` has position `i` and the formula's hash |
| DepBytes.FormulaSliceDEPBytes | tracer/dep_tracer/depbyte.go:48-58 | fails exactly when `offset + size` passes the end of the result; otherwise `size` bytes at positions `offset ..` of the formula |
| DepBytes.OverflowSlice | tracer/dep_tracer/depbyte.go:60-74 | `size` bytes; byte `i` is input byte `offset + i` when that exists and the init-zero byte otherwise |
| Formulas.InitHash | tracer/dep_tracer/formula.go:64-78 | a non-zero cached hash is kept, a zero one is replaced by the computed hash; nothing else changes |
| Formulas.InitHashIdempotent | tracer/dep_tracer/formula.go:64-78 | running the hash initialisation twice is the same as once |
| Formulas.ConstantNew | tracer/dep_tracer/formula.go:17-21 | a constant formula has the given opcode and result, no operands and its computed hash |
| Formulas.FormulaNew | tracer/dep_tracer/formula.go:23-27 | a formula has the given opcode, result and operands and its computed hash |
| Formulas.HashInputs | tracer/dep_tracer/formula.go:68-76 | the hash of a non-constant formula depends only on opcode and operands; that of a constant only on opcode and result |
| Formulas.Bin | tracer/dep_tracer/formula.go:48-58 | the encoding is `17 + len(result) + 32*len(operands)` bytes and starts with the opcode |
| Formulas.Decode | tracer/dep_tracer/formula.go:29-46 | a successful decode reads a hashed formula whose announced sizes fit in the buffer |
| Formulas.BinRoundTrip | tracer/dep_tracer/formula.go:29-58 | decoding the encoding of any hashed formula gives it back |
| Formulas.FormulaBin | tracer/dep_tracer/formula.go:29-46 | the decoding loop computes `Decode`, including its failure on a short buffer |
| FormulaMemory.RoundUp32 | tracer/dep_tracer/memory.go:46-48 | the requested size rounded up to the next multiple of 32, unchanged when already a multiple |
| FormulaMemory.ExtendedShape | tracer/dep_tracer/memory.go:45-57 | extension never shrinks memory, keeps its contents, pads with init-zero bytes up to the rounded size, and keeps the length a multiple of 32 |
| FormulaMemory.ExtendedCovered | tracer/dep_tracer/memory.go:49-51 | extending to a size already covered changes nothing |
| FormulaMemory.LoadAfterSetN | tracer/dep_tracer/memory.go:29-43 | loading the range just written returns the written bytes |
| FormulaMemory.SetNFrame | tracer/dep_tracer/memory.go:29-35 | a write leaves every byte outside its range as it was (or init-zero where memory grew) |
| FormulaMemory.Memory.constructor | tracer/dep_tracer/memory.go:7-11 | a new memory is empty |
| FormulaMemory.Memory.Copy | tracer/dep_tracer/memory.go:13-17 | a copy is a fresh memory with the same bytes |
| FormulaMemory.Memory.Extend | tracer/dep_tracer/memory.go:45-57 | the new contents are the old ones extended to the rounded size |
| FormulaMemory.Memory.Set | tracer/dep_tracer/memory.go:19-22 | memory is extended to cover `offset` and the byte there replaced |
| FormulaMemory.Memory.Set32 | tracer/dep_tracer/memory.go:24-27 | 32 bytes written at `offset` after extension |
| FormulaMemory.Memory.SetN | tracer/dep_tracer/memory.go:29-35 | an empty write changes nothing; otherwise memory is extended and the bytes written at `offset` |
| FormulaMemory.Memory.Load | tracer/dep_tracer/memory.go:37-43 | an empty load returns nothing and leaves memory alone; otherwise memory is extended and the range returned |
| FormulaStack.SwappedEffect | tracer/dep_tracer/stack.go:46-48 | swap exchanges the top with the `n`-th entry from the top and leaves every other entry |
| FormulaStack.SwappedTwice | tracer/dep_tracer/stack.go:46-48 | swapping twice with the same `n` restores the stack |
| FormulaStack.PaddedShape | tracer/dep_tracer/stack.go:26-38 | a short value is right-aligned in a 32-byte word and the rest filled with init-zero bytes |
| FormulaStack.Stack.constructor | tracer/dep_tracer/stack.go:7-11 | a new stack is empty |
| FormulaStack.Stack.Copy | tracer/dep_tracer/stack.go:13-20 | a copy is a fresh stack with the same words |
| FormulaStack.Stack.Push | tracer/dep_tracer/stack.go:22-24 | the word is appended on top |
| FormulaStack.Stack.PushN | tracer/dep_tracer/stack.go:26-38 | fails exactly for more than 32 bytes; otherwise the padded word is pushed |
| FormulaStack.Stack.Pop | tracer/dep_tracer/stack.go:40-44 | fails exactly on an empty stack; otherwise returns the top and removes it |
| FormulaStack.Stack.Swap | tracer/dep_tracer/stack.go:46-48 | fails exactly when `n` is not between 1 and the stack size; otherwise swaps |
| FormulaStack.Stack.Dup | tracer/dep_tracer/stack.go:50-52 | fails exactly when `n` is not between 1 and the stack size; otherwise pushes a copy of the `n`-th entry |
| FormulaStack.Stack.Size | tracer/dep_tracer/stack.go:54-56 | the number of words on the stack |
| CryptoHelpers.Trimmed | tracer/dep_tracer/crypto_helpers.go:29-31 | removing leading zero bytes never lengthens and leaves no leading zero |
| CryptoHelpers.FromBELeadingZero | tracer/dep_tracer/crypto_helpers.go:29-31 | a leading zero byte does not change a big-endian value |
| CryptoHelpers.FromBETrimmed | tracer/dep_tracer/crypto_helpers.go:29-31 | stripping leading zeros keeps the value |
| CryptoHelpers.FromBELowerBound | tracer/dep_tracer/crypto_helpers.go:29-36 | a minimal big-endian string of `n` bytes is at least `256^(n-1)` |
| CryptoHelpers.NonceEncodingIsRlp | tracer/dep_tracer/crypto_helpers.go:27-37 | the nonce encoding follows the RLP scalar rules: `0x80` for 0, the byte itself up to `0x7f`, otherwise a `0x80+k` header and `k` minimal big-endian bytes |
| CryptoHelpers.NonceRoundTrip | tracer/dep_tracer/crypto_helpers.go:27-37 | the RLP scalar decoding rule reads every nonce encoding back to the nonce |
| CryptoHelpers.NonceEncodingLength | tracer/dep_tracer/crypto_helpers.go:27-37 | a nonce encodes to one to nine bytes |
| CryptoHelpers.RlpEncodeNonce | tracer/dep_tracer/crypto_helpers.go:27-37 | the stripping loop computes the RLP scalar encoding |
| CryptoHelpers.AddressEncoding | tracer/dep_tracer/crypto_helpers.go:22-25 | an address encodes to 21 bytes: `0x94` and the address |
| CryptoHelpers.CreateEncodingShortList | tracer/dep_tracer/crypto_helpers.go:14-20 | the creation payload is 22 to 30 bytes, so the one-byte list header never wraps and the result is a short RLP list of address and nonce |
| CryptoHelpers.RlpEncodeCreate | tracer/dep_tracer/crypto_helpers.go:14-20 | computes the RLP list of address and nonce |
| CryptoHelpers.BytesToAddressAsWrittenIsZero | tracer/dep_tracer/crypto_helpers.go:43-54 | as written, every input converts to the zero address |
| CryptoHelpers.BytesToAddressAsWrittenLosesInput | tracer/dep_tracer/crypto_helpers.go:43-54 | an all-`0x01` 20-byte input comes back as zero as written, but unchanged under the intended conversion |
| CryptoHelpers.BytesToAddress | tracer/dep_tracer/crypto_helpers.go:43-54 | the intended conversion: the last 20 bytes, or the input right-aligned over zeros when shorter |
| CryptoHelpers.CreateAddress | tracer/dep_tracer/crypto_helpers.go:9-12 | the CREATE address is the last 20 bytes of Keccak-256 of the RLP of `[caller, nonce]` (corrected reading, see ## Findings) |
| CryptoHelpers.CreateAddress2 | tracer/dep_tracer/crypto_helpers.go:39-41 | the CREATE2 address is the last 20 bytes of Keccak-256 of `0xff ++ creator ++ salt ++ inithash` |
| SolViews.KindName | tracer/dep_tracer/sol_view.go:36-45 | a name exists exactly for the three line types constant, offset and mapping |
| SolViews.Json | tracer/dep_tracer/sol_view.go:33-48 | succeeds exactly when every line has a known type, and then gives one (type name, data) pair per line in order |
| SolViews.AllZeroBytes | tracer/dep_tracer/sol_view.go:51-58 | true exactly when every byte is zero |
| SolViews.ConstantView | tracer/dep_tracer/sol_view.go:97-105 | a single constant line |
| SolViews.SolViewNew | tracer/dep_tracer/sol_view.go:50-107 | never empty and well typed; a hash with a preimage of 32 bytes or more ends in a mapping line holding the key, a shorter one is a constant; an addition with a hash operand ends in an offset line exactly when the other operand is not all zeros; anything else is one constant line |
| SolViews.SolViewFuel | tracer/dep_tracer/sol_view.go:50-107 | the same promises, with a recursion bound; a hash view never ends in an offset line |
| SolViews.KeccakView | tracer/dep_tracer/sol_view.go:62-76 | the hash case: a mapping for a preimage of at least 32 bytes, else a constant of the hash value |
| SolViews.MappingView | tracer/dep_tracer/sol_view.go:63-71 | at least two lines, the last a mapping line whose data is the preimage without its last 32 bytes |
| SolViews.Prefix | tracer/dep_tracer/sol_view.go:69 | the slice result is the first `size` bytes of the preimage |
| SolViews.AddView | tracer/dep_tracer/sol_view.go:77-96 | the addition case: without a hash operand a constant, otherwise the hash operand's view followed by the offset |
| SolViews.OffsetView | tracer/dep_tracer/sol_view.go:85-95 | the last line is an offset line carrying the other operand exactly when that operand is not all zeros |
| SolViews.SStoreSolidity | tracer/dep_tracer/logger.go:166-174 | fails unless the formula is a storage write or read with two operands; the view is non-empty and the printed value is operand 0's result |
| SolViews.LogFinalSlot | tracer/dep_tracer/logger.go:130-136 | logs the final-slot event; a Solidity view is produced exactly when it is switched on and the event had outputs, and then the first "crypto" short formula exists |
| Logging.LoggerDefinition.constructor | tracer/dep_tracer/logger.go:27-42 | a new definition selects no opcode and has every flag off |
| Logging.LoggerDefinition.AddOpcdesFull | tracer/dep_tracer/logger.go:44-48 | afterwards an opcode is logged in full exactly when it was before or is among the added ones |
| Logging.LoggerDefinition.AddOpcdesShort | tracer/dep_tracer/logger.go:50-54 | afterwards an opcode is logged short exactly when it was before or is among the added ones |
| Logging.LoggerDefinition.Settings | tracer/dep_tracer/logger.go:56-64 | the copied settings select the same opcodes as the definition's lookups |
| Logging.OutputsKeys | tracer/dep_tracer/logger.go:145-160 | the output map has "full" exactly when full logging is on and the definition names exactly when short logging is on; with both off it is empty |
| Logging.OutputsValues | tracer/dep_tracer/logger.go:145-160 | "full" carries the formulas unless a definition has that name; each name carries the short formulas of its last definition |
| Logging.Written | tracer/dep_tracer/logger.go:161-163 | an event is written exactly when its output map is not empty |
| Logging.Logger.constructor | tracer/dep_tracer/logger.go:86-92 | a new logger holds the settings and an empty context |
| Logging.Logger.EnterContext | tracer/dep_tracer/logger.go:94-99 | block, time, origin and transaction hash are set and the rest of the context kept |
| Logging.Logger.SetContractAddress | tracer/dep_tracer/logger.go:101-107 | address, its version, code address, code hash and initcode hash are set and the rest kept |
| Logging.Logger.WriteEvent | tracer/dep_tracer/logger.go:176-218 | one event record with the current context is appended |
| Shorterning.NewProtectedDefinition | tracer/dep_tracer/formula_shorterning.go:12-25 | the definition carries the name and protects exactly the listed opcodes |
| Shorterning.CryptoProtectedDefinition | tracer/dep_tracer/formula_shorterning.go:27-32 | "crypto" protects exactly storage, both Keccak opcodes and the precompile results, and not the constants or concatenation |
| Shorterning.HashAndProtected.Bin | tracer/dep_tracer/formula_shorterning.go:57-73 | 33 bytes (hash and flag) without a source, 66 with the source hash and flag |
| Shorterning.HashAndProtectedFromBin | tracer/dep_tracer/formula_shorterning.go:42-55 | decoding succeeds exactly on 33 bytes or on at least 66 |
| Shorterning.BinRoundTrip | tracer/dep_tracer/formula_shorterning.go:42-73 | an entry round-trips exactly when it has a source hash or its source flag is off |
| Shorterning.EffectiveChild | tracer/dep_tracer/formula_shorterning.go:135-138 | a child entry with a source stands for that source, without a source of its own |
| Shorterning.ProtectionAppend | tracer/dep_tracer/formula_shorterning.go:139-147 | each child adds its protection; for an addressable opcode only the first child counts |
| Shorterning.MergeRunsOperands | tracer/dep_tracer/formula_shorterning.go:152-170 | merging keeps the non-constant children as operands, in order |
| Shorterning.MergeRunsBytes | tracer/dep_tracer/formula_shorterning.go:152-170 | merging keeps every constant byte, after the pending ones, in order |
| Shorterning.MergeRunsMaximal | tracer/dep_tracer/formula_shorterning.go:152-170 | merging leaves no empty and no two adjacent constant runs |
| Shorterning.MergeStepHashes | tracer/dep_tracer/formula_shorterning.go:155-166 | a constant child extends the pending run; any other child flushes the run, if any, and is emitted |
| Shorterning.MergeStepOps | tracer/dep_tracer/formula_shorterning.go:158-165 | the operand list after a non-constant child is the merged list so far |
| Shorterning.MergeEndOps | tracer/dep_tracer/formula_shorterning.go:167-170 | after the last child only the pending run, if any, is emitted |
| Shorterning.ShortEntryCases | tracer/dep_tracer/formula_shorterning.go:124-192 | an unprotected formula maps to a constant of its own value; a protected one keeps opcode and result over the children's short formulas, with a source only for an addressable opcode |
| Shorterning.ProtectionSpreads | tracer/dep_tracer/formula_shorterning.go:139-147 | a protected counted child makes the parent protected |
| Shorterning.ResetMappingEntries | tracer/dep_tracer/formula_shorterning.go:97-107 | after a reset the mapping knows exactly the two zero constants, the zero constant mapping to itself unprotected and the init-zero constant to itself when protected and to the zero constant otherwise |
| Shorterning.GrownByLoadsKnown | tracer/dep_tracer/formula_shorterning.go:109-117 | loading only caches: a lookup gives what it gave before |
| Shorterning.GrownByLoadsTrans | tracer/dep_tracer/formula_shorterning.go:109-117 | loads compose |
| Shorterning.Shorterner.constructor | tracer/dep_tracer/formula_shorterning.go:83-95 | binds the definition and its mapping database and resets the cache |
| Shorterning.Shorterner.Reset | tracer/dep_tracer/formula_shorterning.go:97-107 | the cache becomes the reset mapping; the database is untouched |
| Shorterning.Shorterner.LoadChildHash | tracer/dep_tracer/formula_shorterning.go:109-117 | a cached entry is returned as is; otherwise the entry is read from the database (a missing or malformed one fails) and cached |
| Shorterning.Shorterner.SaveChildHash | tracer/dep_tracer/formula_shorterning.go:119-122 | the cached entry (the zero entry when there is none) is written to the database under the parent hash |
| SimpleDb.Inserted | tracer/dep_tracer/simpledb.go:218-226 | creating a formula adds its hash to the cache, uncommitted, unless the hash is already cached, and changes nothing else |
| SimpleDb.ChangedFormulasStep | tracer/dep_tracer/simpledb.go:95-104 | the byte loop commits a byte's formula exactly when it differs from the previous byte's |
| SimpleDb.ChangedFormulasCover | tracer/dep_tracer/simpledb.go:95-104 | every non-zero formula of the bytes is committed, and only formulas of the bytes are |
| SimpleDb.MappingSavedLoads | tracer/dep_tracer/simpledb.go:161-163 | a mapping entry once saved is read back by a later load, after a reset or in a later run |
| SimpleDb.CommitNewFacts | tracer/dep_tracer/simpledb.go:128-132 | committing an uncommitted formula saves it and everything its operands reach, commits nothing else and only sets commit flags |
| SimpleDb.ShortCommitAsWritten | tracer/dep_tracer/simpledb.go:152-164 | as written, one shorterner step fails when the short formula is not cached, saves the parent's mapping when the short formula was uncommitted, and skips the save when it was committed |
| SimpleDb.SharedShortLosesMapping | tracer/dep_tracer/simpledb.go:158-160 | two formulas that shorten to one formula: after committing the first, committing the second saves no mapping for it, so a later load of its entry fails |
| SimpleDb.SimpleDB.constructor | tracer/dep_tracer/simpledb.go:59-93 | empty caches, both zero constants saved to the formula store, the other stores as given, one freshly reset shorterner per definition, and a logger with the settings |
| SimpleDb.SimpleDB.GetFormula | tracer/dep_tracer/simpledb.go:196-203 | a cached formula is returned as is; otherwise it is decoded from the store (a missing or malformed entry fails) and cached as committed |
| SimpleDb.SimpleDB.ConstantNew | tracer/dep_tracer/simpledb.go:218-226 | returns the hashed constant and adds it uncommitted unless already cached |
| SimpleDb.SimpleDB.FormulaNew | tracer/dep_tracer/simpledb.go:241-249 | returns the hashed formula and adds it uncommitted unless already cached |
| SimpleDb.SimpleDB.ResetFormulas | tracer/dep_tracer/simpledb.go:174-181 | both caches are emptied and every shorterner's cache reset, their stores kept |
| SimpleDb.SimpleDB.CommitFormulaInternal | tracer/dep_tracer/simpledb.go:117-133 | fails exactly for a missing hash not ignored; a committed formula changes nothing; otherwise exactly the uncommitted formulas it reaches are saved and marked, their reachable operands committed, and no flag is cleared |
| SimpleDb.SimpleDB.CommitNew | tracer/dep_tracer/simpledb.go:128-132 | the uncommitted case: the formula ends committed and everything newly committed is saved with its operands committed |
| SimpleDb.SimpleDB.CommitOperands | tracer/dep_tracer/simpledb.go:130-132 | every cached operand ends committed |
| SimpleDb.SimpleDB.CommitFormula | tracer/dep_tracer/simpledb.go:135-137 | succeeds exactly for a cached hash, which ends committed with everything newly committed saved |
| SimpleDb.SimpleDB.CommitDEPBytes | tracer/dep_tracer/simpledb.go:95-104 | succeeds exactly when every formula the byte loop visits is cached, and then they all end committed and saved |
| SimpleDb.SimpleDB.CommitChange | tracer/dep_tracer/simpledb.go:99-102 | one commit of the byte loop, keeping what was committed before |
| SimpleDb.SimpleDB.FormulaDep | tracer/dep_tracer/simpledb.go:339-392 | no bytes give the empty concatenation; otherwise the bytes are cut into runs and the result is the dependency formula of their parts, and it succeeds whenever every run's formula is known |
| SimpleDb.SimpleDB.DepParts | tracer/dep_tracer/simpledb.go:364-386 | the parts of all runs, with their hashes and bytes in order, each part cached |
| SimpleDb.SimpleDB.RunPartOf | tracer/dep_tracer/simpledb.go:366-385 | a run covering a whole formula stands for it; any other run is the slice of its formula; the part is cached |
| SimpleDb.SimpleDB.SplitRuns | tracer/dep_tracer/simpledb.go:344-362 | the first loop computes the runs of consecutive positions of one formula |
| SimpleDb.SimpleDB.FormulaSlice | tracer/dep_tracer/simpledb.go:251-337 | out-of-range windows fail, an empty window is the empty concatenation, and a non-concatenation is sliced as `SliceOf` says |
| SimpleDb.SimpleDB.FormulaSliceFuel | tracer/dep_tracer/simpledb.go:251-337 | the same, with a recursion bound for nested concatenations |
| SimpleDb.SimpleDB.SliceLeaf | tracer/dep_tracer/simpledb.go:315-336 | a slice of a non-concatenation is as `SliceOf` says |
| SimpleDb.SimpleDB.Reslice | tracer/dep_tracer/simpledb.go:315-326 | a slice of a slice points at the underlying formula with the offsets added |
| SimpleDb.SimpleDB.SliceWrap | tracer/dep_tracer/simpledb.go:327-335 | the slice formula with its offset and size constants, failing when `offset + size` wraps |
| SimpleDb.SimpleDB.ConcatSlice | tracer/dep_tracer/simpledb.go:264-314 | the concatenation case keeps the cache valid and only grows it |
| SimpleDb.SimpleDB.Shortern | tracer/dep_tracer/formula_shorterning.go:124-192 | every operand entry is loaded (a source entry standing for its source), each names a cached formula, and the parent's entry becomes the one the shortening rules give |
| SimpleDb.SimpleDB.HashesOf | tracer/dep_tracer/formula_shorterning.go:177-180 | the hashes of the operand formulas in order |
| SimpleDb.SimpleDB.MergeConstants | tracer/dep_tracer/formula_shorterning.go:152-170 | the operands of the protected concatenation are the merged runs' hashes |
| SimpleDb.SimpleDB.FlushConstant | tracer/dep_tracer/formula_shorterning.go:159-163 | a pending run becomes one new constant's hash; an empty run gives nothing |
| SimpleDb.SimpleDB.Names | tracer/dep_tracer/logger.go:158 | the definitions' names, in order |
| SimpleDb.SimpleDB.ShortFormulasOf | tracer/dep_tracer/logger.go:152-157 | the short formula of each formula under one definition |
| SimpleDb.SimpleDB.AllShortFormulas | tracer/dep_tracer/logger.go:151-159 | the short formulas under every definition, each definition's cache only growing by loads |
| SimpleDb.SimpleDB.LogFormulasWithShorts | tracer/dep_tracer/logger.go:145-164 | the output map as `Outputs` builds it from the short formulas; the event is written exactly when the map is not empty; with short logging off nothing is loaded |
| SimpleDb.SimpleDB.ShortOutputs | tracer/dep_tracer/logger.go:150-160 | the output map with short logging on |
| SimpleDb.SimpleDB.LogOpcode | tracer/dep_tracer/logger.go:138-143 | an opcode event under the opcode's own switches; with neither switch nothing is written |
| SimpleDb.SimpleDB.LogLog | tracer/dep_tracer/logger.go:109-114 | a log event over the data and then the topics, under the log switches |
| SimpleDb.SimpleDB.LogValue | tracer/dep_tracer/logger.go:116-136 | return data, final code and final slots are logged as the dependency formula of their bytes under their own switches |
| SimpleDb.SimpleDB.GetFormulaWithShorts | tracer/dep_tracer/simpledb.go:183-194 | a formula of the with-shorts cache is returned as is; otherwise the plain lookup's formula is cached as committed after every shorterner has loaded its short formula |
| SimpleDb.SimpleDB.FetchShorts | tracer/dep_tracer/simpledb.go:189-192 | every shorterner's short formula of the hash ends cached |
| SimpleDb.SimpleDB.FetchShort | tracer/dep_tracer/simpledb.go:190-191 | one shorterner loads the entry and then its short formula |
| SimpleDb.SimpleDB.ShortenAll | tracer/dep_tracer/simpledb.go:211-213 | the formula is shortened under every definition |
| SimpleDb.SimpleDB.AddWithShorts | tracer/dep_tracer/simpledb.go:207-215 | a known formula changes nothing; a new one is cached uncommitted, shortened under every definition and logged as an opcode event |
| SimpleDb.SimpleDB.ConstantNewWithShorts | tracer/dep_tracer/simpledb.go:205-216 | the constant is made, added to both caches, shortened and logged when new |
| SimpleDb.SimpleDB.FormulaNewWithShorts | tracer/dep_tracer/simpledb.go:228-239 | the formula is made, added to both caches, shortened and logged when new |
| SimpleDb.SimpleDB.FormulaDepWithShorts | tracer/dep_tracer/simpledb.go:394-447 | the dependency formula over the with-shorts cache, which is DepOf of the bytes under that cache: empty for no bytes, else the formula of the runs' parts |
| SimpleDb.SimpleDB.DepPartsWithShorts | tracer/dep_tracer/simpledb.go:419-441 | the parts of all runs over the with-shorts cache, each cached there |
| SimpleDb.SimpleDB.RunPartWithShorts | tracer/dep_tracer/simpledb.go:421-440 | one run's part over the with-shorts cache |
| SimpleDb.SimpleDB.SliceWithShorts | tracer/dep_tracer/simpledb.go:430-439 | the slice branch: the slice formula of the window, cached with its shorts |
| SimpleDb.SimpleDB.Mappings | tracer/dep_tracer/simpledb.go:152-153 | the shorterners' caches, in order |
| SimpleDb.SimpleDB.MappingDBs | tracer/dep_tracer/formula_shorterning.go:119-122 | the shorterners' entry stores, in order |
| SimpleDb.SimpleDB.CommitFormulaWithShortsInternal | tracer/dep_tracer/simpledb.go:139-168 | a missing hash fails unless ignored, a committed one changes nothing; otherwise everything newly committed is saved with its short formulas and mapping entries |
| SimpleDb.SimpleDB.CommitFormulaWithShorts | tracer/dep_tracer/simpledb.go:170-172 | fails for a missing hash; otherwise the hash ends committed with its shorts and mappings saved |
| SimpleDb.SimpleDB.CommitDEPBytesWithShorts | tracer/dep_tracer/simpledb.go:106-115 | fails when a formula the byte loop visits is missing; otherwise they all end committed with their mappings saved |
| SimpleDb.SimpleDB.CommitChangeWithShorts | tracer/dep_tracer/simpledb.go:110-113 | one commit of the byte loop, extending what was committed before |
| SimpleDb.SimpleDB.CommitNewWithShorts | tracer/dep_tracer/simpledb.go:150-167 | the uncommitted case: saved, marked, shorts committed, operands committed |
| SimpleDb.SimpleDB.CommitOperandsWithShorts | tracer/dep_tracer/simpledb.go:165-167 | every cached operand ends committed |
| SimpleDb.SimpleDB.CommitShorts | tracer/dep_tracer/simpledb.go:152-164 | corrected shorterner loop: succeeds exactly when every short formula is cached, and then every short formula is committed and every definition's mapping entry saved |
| SimpleDb.SimpleDB.CommitShort | tracer/dep_tracer/simpledb.go:153-163 | one definition's short formula is committed and its mapping entry saved |
| SimpleDb.SimpleDB.GetAddressVersion | tracer/dep_tracer/simpledb.go:459-465 | the stored version of an account, 0 when none is stored |
| SimpleDb.SimpleDB.IncreaseAddressVersion | tracer/dep_tracer/simpledb.go:467-473 | the next version (wrapping at 2^64) is stored and returned, and reading it back gives it |
| SimpleDb.SimpleDB.GetSlot | tracer/dep_tracer/simpledb.go:475-492 | 32 init-zero bytes when no position is stored, the 32 stored bytes when all are, and a failure otherwise |
| SimpleDb.SimpleDB.SlotBytes | tracer/dep_tracer/simpledb.go:478-484 | the present stored bytes of the slot, in position order |
| SimpleDb.SimpleDB.SetSlot | tracer/dep_tracer/simpledb.go:494-503 | fails unless given 32 bytes; otherwise they are stored at the current version and `GetSlot` reads them back |
| SimpleDb.SimpleDB.GetCode | tracer/dep_tracer/simpledb.go:505-527 | the code hash, the init-code hash and the code bytes up to the first absent position, at the current version |
| SimpleDb.SimpleDB.SetCode | tracer/dep_tracer/simpledb.go:529-550 | hashes and code are stored at the current version and stale positions after the code deleted, so `GetCode` reads back exactly what was set |
| SimpleDb.SimpleDB.WriteCode | tracer/dep_tracer/simpledb.go:537-541 | byte `k` is stored at code position `k` |
| SimpleDb.SimpleDB.DeleteCodeFrom | tracer/dep_tracer/simpledb.go:542-549 | stored positions from `start` on are deleted up to the first absent one |
| SimpleDbLayout.StoreLocation | tracer/dep_tracer/simpledb.go:37-44 | a slot-byte key is 61 bytes |
| SimpleDbLayout.StoreLocationParts | tracer/dep_tracer/simpledb.go:37-44 | address, BE64 version, 32-byte slot and position sit at fixed offsets of the key |
| SimpleDbLayout.CodeHashLocation | tracer/dep_tracer/simpledb.go:46-50 | the code-hash key is the address and BE64 version, 28 bytes |
| SimpleDbLayout.CodeLocation | tracer/dep_tracer/simpledb.go:52-57 | a code-byte key is address, BE64 version and BE64 position, 36 bytes |
| SimpleDbLayout.StoreLocationInjective | tracer/dep_tracer/simpledb.go:37-44 | distinct (account, version, slot, position) never share a key |
| SimpleDbLayout.CodeLocationInjective | tracer/dep_tracer/simpledb.go:52-57 | distinct (account, version, position) never share a key |
| SimpleDbLayout.VersionRead | tracer/dep_tracer/simpledb.go:459-465 | an account with no stored version is at version 0 |
| SimpleDbLayout.VersionRoundTrip | tracer/dep_tracer/simpledb.go:459-473 | a stored version is read back |
| SimpleDbLayout.StoredBytesFailStays | tracer/dep_tracer/simpledb.go:478-484 | once decoding a stored slot byte fails, reading further positions fails the same way |
| SimpleDbLayout.SlotRead | tracer/dep_tracer/simpledb.go:475-492 | a successful slot read is 32 bytes |
| SimpleDbLayout.SlotReadFound | tracer/dep_tracer/simpledb.go:485-491 | no stored bytes read as 32 init-zero bytes, all 32 as themselves, any other count fails |
| SimpleDbLayout.SlotWrittenAt | tracer/dep_tracer/simpledb.go:499-502 | after writing, each written position holds the encoding of its byte |
| SimpleDbLayout.StoredBytesAfterWrite | tracer/dep_tracer/simpledb.go:494-503 | reading back the written positions gives the written bytes |
| SimpleDbLayout.SlotRoundTrip | tracer/dep_tracer/simpledb.go:475-503 | reading a slot after writing its 32 bytes at the same version gives them back |
| SimpleDbLayout.StoredBytesNone | tracer/dep_tracer/simpledb.go:478-484 | a slot with no stored position yields no bytes |
| SimpleDbLayout.SlotReadEmpty | tracer/dep_tracer/simpledb.go:485-487 | a never-written slot reads as 32 init-zero bytes |
| SimpleDbLayout.Pad32 | tracer/dep_tracer/simpledb.go:513-514 | the init-code hash is the record's tail cut or zero-padded to 32 bytes |
| SimpleDbLayout.CodeHashesRoundTrip | tracer/dep_tracer/simpledb.go:505-533 | stored code and init-code hashes are read back |
| SimpleDbLayout.CodeKeysSize | tracer/dep_tracer/simpledb.go:52-57 | the first `i` code positions of an account have `i` distinct keys |
| SimpleDbLayout.PrefixBound | tracer/dep_tracer/simpledb.go:518-525 | a stored prefix of code positions is no longer than the store, so the read loop ends |
| SimpleDbLayout.CodeFromStep | tracer/dep_tracer/simpledb.go:518-525 | one iteration of the code read loop keeps the decoded byte at a present position or fails on a malformed one |
| SimpleDbLayout.CodeWrittenAt | tracer/dep_tracer/simpledb.go:537-541 | after the write loop each position holds the encoding of its byte |
| SimpleDbLayout.CodeWrittenSize | tracer/dep_tracer/simpledb.go:537-541 | the write loop adds at most one key per byte |
| SimpleDbLayout.CodeDeletedFacts | tracer/dep_tracer/simpledb.go:542-549 | the delete loop removes only positions from `i` on and leaves position `i` absent |
| SimpleDbLayout.CodeFromWritten | tracer/dep_tracer/simpledb.go:518-525 | reading from a store holding exactly the written positions gives the written bytes |
| SimpleDbLayout.CodeRoundTrip | tracer/dep_tracer/simpledb.go:505-550 | reading the code after setting it gives exactly the bytes set; the stale tail of a longer earlier code is deleted |
| SimpleDbLayout.SlotEntryRoundTrip | tracer/dep_tracer/simpledb.go:475-503 | a slot set at the account's current version reads back |
| SimpleDbLayout.CodeEntryRoundTrip | tracer/dep_tracer/simpledb.go:505-550 | code set at the account's current version reads back with its two hashes |
| FormulaDeps.KnownFormula | tracer/dep_tracer/simpledb.go:196-203 | a cached formula, else the decoded store entry, and a failure for a hash in neither |
| FormulaDeps.ExtendsKnown | tracer/dep_tracer/simpledb.go:196-203 | a cached formula keeps being what a lookup gives as the cache grows |
| FormulaDeps.Runs | tracer/dep_tracer/simpledb.go:344-362 | runs are non-empty, no more than the bytes, and exist exactly when there are bytes |
| FormulaDeps.RunsExtend | tracer/dep_tracer/simpledb.go:347-359 | each byte extends the last run when it continues it and opens a new run otherwise |
| FormulaDeps.RunsFirst | tracer/dep_tracer/simpledb.go:348-351 | the first byte opens the first run |
| FormulaDeps.RunsJoined | tracer/dep_tracer/simpledb.go:344-362 | concatenating the runs gives the input back |
| FormulaDeps.RunsConsecutive | tracer/dep_tracer/simpledb.go:353-355 | every run is a sequence of consecutive positions of one formula |
| FormulaDeps.RunsMaximal | tracer/dep_tracer/simpledb.go:357-358 | no run could have absorbed the first byte of the next |
| FormulaDeps.RunsFacts | tracer/dep_tracer/simpledb.go:344-362 | the runs are exactly the input cut into maximal runs of consecutive positions of one formula |
| FormulaDeps.ConsecutivePositions | tracer/dep_tracer/simpledb.go:353 | byte `i` of a run has the run's formula and the first position plus `i`, modulo 2^64 |
| FormulaDeps.SliceFormula | tracer/dep_tracer/simpledb.go:375-383 | a slice formula has the bytes as result and operands: the source hash, then constants of the BE64 offset and size |
| FormulaDeps.Parts | tracer/dep_tracer/simpledb.go:364-386 | one part per run |
| FormulaDeps.PartHashes | tracer/dep_tracer/simpledb.go:372-384 | the hash of each part, in order |
| FormulaDeps.ValuesOf | tracer/dep_tracer/simpledb.go:381 | the byte each dependency byte points to, in order |
| FormulaDeps.RunPartNoWrap | tracer/dep_tracer/simpledb.go:366-385 | a run within 64-bit positions yields its part exactly when it lies inside its formula, and the part's bytes are the bytes it points to |
| FormulaDeps.RunPartWrap | tracer/dep_tracer/simpledb.go:366-385 | a run whose positions wrap past 2^64 fails, and some byte of it points outside its formula |
| FormulaDeps.RunPartMeaning | tracer/dep_tracer/simpledb.go:366-385 | a run yields its part exactly when every position falls inside the formula, and then the part's bytes are the bytes the run points to |
| FormulaDeps.AppendFacts | tracer/dep_tracer/simpledb.go:381-382 | resolution and values distribute over concatenation |
| FormulaDeps.PartsMeaning | tracer/dep_tracer/simpledb.go:364-386 | the parts of consecutive runs exist exactly when every byte resolves, and their bytes are the bytes pointed to |
| FormulaDeps.DepMeaning | tracer/dep_tracer/simpledb.go:339-392 | the dependency formula of any input exists exactly when every byte resolves to a byte of a cached formula, and its result is then those bytes |
| FormulaDeps.DepOf | tracer/dep_tracer/simpledb.go:339-392 | the dependency formula of no bytes is the empty CONCAT; otherwise it exists only when every run has its part, and over several runs it is then the CONCAT of those parts' bytes with their hashes as operands |
| FormulaDeps.DepOfExtends | tracer/dep_tracer/simpledb.go:369 | a dependency formula found in a cache stays the same as the cache grows |
| FormulaDeps.DepOfMeaning | tracer/dep_tracer/simpledb.go:339-392 | a dependency formula exists only when every byte resolves, and for several runs exactly then; its result is then the bytes they point to |
| FormulaDeps.RunPartCases | tracer/dep_tracer/simpledb.go:371-385 | a run covering a whole formula keeps that formula's hash; any other run becomes a slice formula of its window |
| FormulaDeps.PartsExtends | tracer/dep_tracer/simpledb.go:369 | parts found in a cache stay the same as it grows |
| FormulaDeps.PartsPrefix | tracer/dep_tracer/simpledb.go:365 | the parts of a prefix of the runs are the prefix of the parts |
| FormulaDeps.PartsFailStays | tracer/dep_tracer/simpledb.go:369 | a failure found in a grown cache is a failure in the original cache |
| FormulaDeps.PartsStep | tracer/dep_tracer/simpledb.go:365-386 | one more run appends its part, or fails when its formula is missing or the run does not fit |
| FormulaDeps.PartsAppend | tracer/dep_tracer/simpledb.go:372-384 | a part found in a grown cache extends the parts, their hashes and their bytes |
| FormulaDeps.PartsFail | tracer/dep_tracer/simpledb.go:369-381 | a run whose part cannot be found fails all the runs |
| FormulaDeps.SliceOf | tracer/dep_tracer/simpledb.go:315-336 | a slice's result is the window of the formula's result; a non-slice is wrapped in a slice formula of its own hash |
| FormulaDeps.SliceComposition | tracer/dep_tracer/simpledb.go:315-326 | slicing a slice is one slice of the original at the summed offset with the original's bytes there |
| Overlays.OverlayNew | tracer/dep_tracer/overlaydb.go:40-51 | a new overlay has empty caches, no updates, no destructions and no transient map |
| Overlays.OverlayCopy | tracer/dep_tracer/overlaydb.go:53-89 | a copy equals the original except that it always has a transient map, the original's or an empty one |
| Overlays.ReadVersion | tracer/dep_tracer/overlaydb.go:91-99 | a cached version is returned as is; otherwise the stored one is read and cached, and nothing else changes |
| Overlays.ReadSlot | tracer/dep_tracer/overlaydb.go:101-110 | a cached slot is returned as is; otherwise the stored slot is read and cached with the zero code address |
| Overlays.WriteSlot | tracer/dep_tracer/overlaydb.go:112-116 | the slot is marked updated and creations are untouched |
| Overlays.ReadTransient | tracer/dep_tracer/overlaydb.go:118-131 | fails exactly without a transient map (a nil-map write in Go); otherwise the value is returned and cached |
| Overlays.WriteTransient | tracer/dep_tracer/overlaydb.go:133-136 | fails exactly without a transient map; otherwise only transient storage changes |
| Overlays.ReadCode | tracer/dep_tracer/overlaydb.go:138-147 | cached code is returned as is; otherwise the stored code and hashes are read and cached with the zero code address |
| Overlays.WriteCode | tracer/dep_tracer/overlaydb.go:149-153 | the code is cached with the SHA-256 of its bytes, marked updated and the account marked created |
| Overlays.Destructed | tracer/dep_tracer/overlaydb.go:155-157 | the account is marked destructed and creations are untouched |
| Overlays.ReadsCached | tracer/dep_tracer/overlaydb.go:91-147 | a second read of a version, slot or code gives the first read's value whatever the store holds |
| Overlays.SlotSetThenGet | tracer/dep_tracer/overlaydb.go:101-116 | a slot read after a write gives the written value, and a read never marks a slot updated |
| Overlays.TransientSetThenGet | tracer/dep_tracer/overlaydb.go:118-136 | an unwritten transient slot reads as 32 init-zero bytes; after a write it reads as the written value |
| Overlays.NewOverlayTransient | tracer/dep_tracer/overlaydb.go:40-89 | a fresh overlay has no transient map, a copy of it has an empty one |
| Overlays.CreatedOnlyBySetCode | tracer/dep_tracer/overlaydb.go:149-162 | only setting code marks an account created; copying keeps the marks and a new overlay has none |
| Overlays.OverlayDB.constructor | tracer/dep_tracer/overlaydb.go:40-51 | a new overlay over the database |
| Overlays.OverlayDB.Copy | tracer/dep_tracer/overlaydb.go:53-89 | a fresh overlay over the same database holding the copied state |
| Overlays.OverlayDB.GetAddressVersion | tracer/dep_tracer/overlaydb.go:91-99 | the version read, with the cache updated as `ReadVersion` says |
| Overlays.OverlayDB.GetSlot | tracer/dep_tracer/overlaydb.go:101-110 | the slot read, with the cache updated as `ReadSlot` says |
| Overlays.OverlayDB.SetSlot | tracer/dep_tracer/overlaydb.go:112-116 | the state after `WriteSlot` |
| Overlays.OverlayDB.GetTransient | tracer/dep_tracer/overlaydb.go:118-131 | the transient read, failing without a transient map |
| Overlays.OverlayDB.SetTransient | tracer/dep_tracer/overlaydb.go:133-136 | the transient write, failing without a transient map |
| Overlays.OverlayDB.GetCode | tracer/dep_tracer/overlaydb.go:138-147 | the code read, with the cache updated as `ReadCode` says |
| Overlays.OverlayDB.SetCode | tracer/dep_tracer/overlaydb.go:149-153 | the state after `WriteCode` |
| Overlays.OverlayDB.Destruct | tracer/dep_tracer/overlaydb.go:155-157 | the state after `Destructed` |
| Overlays.OverlayDB.Created | tracer/dep_tracer/overlaydb.go:159-162 | whether code was set for the account |
| Overlays.OverlayDB.Commit | tracer/dep_tracer/overlaydb.go:164-180 | only updated slots and code change in the stores; once it completes every updated slot reads back its overlay data and every destructed account's version is one higher |
| Overlays.CommitOverlay | tracer/dep_tracer/overlaydb.go:164-180 | slots, then code, then versions, with the same promises as `Commit` |
| Overlays.CommitSlots | tracer/dep_tracer/overlaydb.go:165-170 | only updated slots change, and each reads back its overlay data once the loop completes |
| Overlays.CommitNextSlot | tracer/dep_tracer/overlaydb.go:165-170 | one iteration of the slot loop commits one more updated slot |
| Overlays.SlotsCommittedStep | tracer/dep_tracer/overlaydb.go:168 | a slot stored and read back joins the committed ones, keeping the earlier ones |
| Overlays.CommitSlot | tracer/dep_tracer/overlaydb.go:166-169 | commits the slot's formulas, stores it and logs it, changing no other slot |
| Overlays.StoreSlot | tracer/dep_tracer/overlaydb.go:167-168 | the slot's formulas are committed and its bytes stored |
| Overlays.LogFinal | tracer/dep_tracer/overlaydb.go:169 | logging a final value keeps the database valid and changes only the overlay's version cache |
| Overlays.CommitCodes | tracer/dep_tracer/overlaydb.go:171-176 | only updated accounts' code and code hashes change |
| Overlays.CommitCode | tracer/dep_tracer/overlaydb.go:172-175 | one account's code is committed, stored and logged |
| Overlays.StoreCode | tracer/dep_tracer/overlaydb.go:173-174 | one account's code formulas are committed and its code stored |
| Overlays.BumpVersions | tracer/dep_tracer/overlaydb.go:177-179 | every destructed account's version is one higher and no other changes |
| Overlays.BumpVersion | tracer/dep_tracer/overlaydb.go:178 | one more account's version is one higher |
| OverlayFrames.LocKeyOfStore | tracer/dep_tracer/simpledb.go:37-44 | every slot-byte key names the account and slot it was made from |
| OverlayFrames.SlotWrittenOutside | tracer/dep_tracer/simpledb.go:499-502 | writing one slot's bytes changes only that slot's keys |
| OverlayFrames.SlotStoredOutside | tracer/dep_tracer/simpledb.go:494-503 | setting a slot changes only that slot's keys |
| OverlayFrames.StoredBytesAgree | tracer/dep_tracer/simpledb.go:478-484 | stores agreeing on a slot's keys read the same bytes for it |
| OverlayFrames.SlotEntryAgree | tracer/dep_tracer/simpledb.go:475-492 | a slot outside the changed ones reads the same before and after |
| OverlayFrames.CodeWrittenOutside | tracer/dep_tracer/simpledb.go:537-541 | writing code changes only the account's own keys |
| OverlayFrames.CodeDeletedOutside | tracer/dep_tracer/simpledb.go:542-549 | deleting stale code changes only the account's own keys |
| OverlayFrames.CodeStoredOutside | tracer/dep_tracer/simpledb.go:529-550 | setting code changes only the account's own keys, in both the code and the code-hash store |
| OverlayFrames.BumpedStep | tracer/dep_tracer/simpledb.go:467-473 | raising one more account's version keeps the others raised exactly once |
| Transactions.StateNew | tracer/dep_tracer/transientdb.go:26-33 | a new state exists exactly when the account's version can be read; it has no logs, no transient map and one frame for the account with no calldata, no code and zero hashes |
| Transactions.StateCopy | tracer/dep_tracer/transientdb.go:35-42 | a copied state keeps its frames and logs and copies its overlay, which then always has a transient map (corrected reading, see ## Findings) |
| Transactions.StateCopyAsWritten | tracer/dep_tracer/transientdb.go:35-42 | with the frame copy as written, every copied frame loses its init-code hash and nothing else |
| Transactions.CurState | tracer/dep_tracer/transientdb.go:159-161 | the current state is the last one, and there is one exactly when the stack of states is not empty |
| Transactions.CurFrame | tracer/dep_tracer/transientdb.go:214-248 | the current frame is the innermost frame of the current state, and there is one exactly when both exist |
| Transactions.CallOn | tracer/dep_tracer/transientdb.go:120-125 | a call pushes one state on top of the old ones, clears the return data, and the new state is the copy with one more frame, the same logs, and only the version and code caches of its overlay changed |
| Transactions.CallTx | tracer/dep_tracer/transientdb.go:120-125 | a call with no current state fails; otherwise it is CallOn on a copy of the current state |
| Transactions.CallTxAsWritten | tracer/dep_tracer/transientdb.go:120-125 | the same call over the frame copy as written, failing in the same case |
| Transactions.CreateTx | tracer/dep_tracer/transientdb.go:127-133 | a create succeeds exactly when there is a state and the account's version can be read; it pushes a state whose innermost frame is a create frame for the address with no calldata, the init code as code, and the SHA-256 of the init code as both hashes, and clears the return data |
| Transactions.RevertTx | tracer/dep_tracer/transientdb.go:135-138 | a revert drops the current state and keeps the given return data; it fails only with no state |
| Transactions.ReturnTx | tracer/dep_tracer/transientdb.go:140-148 | a return succeeds exactly when there is a frame and a parent state; the current state, less its innermost frame, replaces the parent; a create frame's returned bytes become its account's code and leave no return data, otherwise the data is kept |
| Transactions.SelfdestructTx | tracer/dep_tracer/transientdb.go:150-153 | a self-destruct marks the frame's account destructed in what becomes the parent state, then returns with no data |
| Transactions.GetAddressVersionTx | tracer/dep_tracer/transientdb.go:178-180 | a version read needs a state and keeps the number of states |
| Transactions.GetSlotTx | tracer/dep_tracer/transientdb.go:182-184 | a slot read needs a frame and changes neither the current frame nor the return data |
| Transactions.SetSlotTx | tracer/dep_tracer/transientdb.go:186-188 | a slot write succeeds exactly when there is a frame and changes neither the frames nor the return data |
| Transactions.GetTransientTx | tracer/dep_tracer/transientdb.go:190-192 | a transient read needs a frame and changes neither the current frame nor the return data |
| Transactions.SetTransientTx | tracer/dep_tracer/transientdb.go:194-196 | a transient write needs a frame and changes neither the current frame nor the return data |
| Transactions.GetCodeTx | tracer/dep_tracer/transientdb.go:198-208 | a code read needs a state and changes neither the current frame nor the return data |
| Transactions.SetCodeTx | tracer/dep_tracer/transientdb.go:210-212 | a code write succeeds exactly when there is a frame and keeps the number of states |
| Transactions.AddLogTx | tracer/dep_tracer/transientdb.go:44-53 | a log is appended to the current state's logs, tagged with the current frame's address, version and code address, and nothing else changes |
| Transactions.UpdateFrameTx | tracer/dep_tracer/transientdb.go:246-252 | writing through the frame's stack and memory replaces the current frame and nothing else |
| Transactions.CallThenRevert | tracer/dep_tracer/transientdb.go:120-138 | a revert right after a call restores the states as they were before the call |
| Transactions.CallThenReturn | tracer/dep_tracer/transientdb.go:120-148 | a return right after a call restores the caller's frames and logs, keeps the outer states, takes the callee's overlay and keeps the return data |
| Transactions.CallThenReturnAsWritten | tracer/dep_tracer/stacked.go:35-47 | with the frame copy as written, the same call and return zero the init-code hash of every caller frame, so a caller frame with a non-zero one comes back changed |
| Transactions.CreateThenReturn | tracer/dep_tracer/transientdb.go:127-148 | a create then its return stores the returned bytes as the account's code, with the SHA-256 of the init code as init-code hash, marks the account created and leaves no return data |
| Transactions.LogsOfCall | tracer/dep_tracer/transientdb.go:44-53 | a log added inside a call is dropped by a revert and kept by a return |
| Transactions.SlotSetThenGetTx | tracer/dep_tracer/transientdb.go:182-188 | a slot the current frame writes reads back as written |
| Transactions.TransactionDB.constructor | tracer/dep_tracer/transientdb.go:83-85 | a new database has no states and no return data |
| Transactions.TransactionDB.NewCall | tracer/dep_tracer/transientdb.go:83-92 | a call transaction has the initial state with one non-create frame and, on top, a copy whose second frame runs the account's code with the CALLDATA constant as calldata, and no return data |
| Transactions.TransactionDB.NewCreate | tracer/dep_tracer/transientdb.go:94-103 | a create transaction has the initial create state and, on top, a copy whose second frame runs the INITCODE constant with the SHA-256 of the init code as both hashes |
| Transactions.TransactionDB.Call | tracer/dep_tracer/transientdb.go:120-125 | the database moves as CallTx says, failing exactly when it does, and the new frame is a call of the address running the code address with the given calldata (corrected reading, see ## Findings) |
| Transactions.TransactionDB.Create | tracer/dep_tracer/transientdb.go:127-133 | the database moves as CreateTx says, failing exactly when it does |
| Transactions.TransactionDB.Revert | tracer/dep_tracer/transientdb.go:135-138 | the database moves as RevertTx says, failing exactly when it does |
| Transactions.TransactionDB.Return | tracer/dep_tracer/transientdb.go:140-148 | the database moves as ReturnTx says, failing exactly when it does |
| Transactions.TransactionDB.Selfdestruct | tracer/dep_tracer/transientdb.go:150-153 | the database moves as SelfdestructTx says, failing exactly when it does |
| Transactions.TransactionDB.Created | tracer/dep_tracer/transientdb.go:155-157 | whether the account was created in the current state's overlay, failing only with no state |
| Transactions.TransactionDB.Cur | tracer/dep_tracer/transientdb.go:214-248 | the current frame as CurFrame gives it |
| Transactions.TransactionDB.PopState | tracer/dep_tracer/transientdb.go:172-176 | the last state is returned and removed; with no state nothing changes |
| Transactions.TransactionDB.GetAddressVersion | tracer/dep_tracer/transientdb.go:178-180 | the version and the new database as GetAddressVersionTx gives them |
| Transactions.TransactionDB.GetSlot | tracer/dep_tracer/transientdb.go:182-184 | the slot and the new database as GetSlotTx gives them |
| Transactions.TransactionDB.SetSlot | tracer/dep_tracer/transientdb.go:186-188 | the database moves as SetSlotTx says |
| Transactions.TransactionDB.GetTransient | tracer/dep_tracer/transientdb.go:190-192 | the transient slot and the new database as GetTransientTx gives them |
| Transactions.TransactionDB.SetTransient | tracer/dep_tracer/transientdb.go:194-196 | the database moves as SetTransientTx says |
| Transactions.TransactionDB.GetCode | tracer/dep_tracer/transientdb.go:198-208 | the code record and the new database as GetCodeTx gives them |
| Transactions.TransactionDB.SetCode | tracer/dep_tracer/transientdb.go:210-212 | the database moves as SetCodeTx says, and a failed write changes nothing |
| Transactions.TransactionDB.AddLog | tracer/dep_tracer/transientdb.go:254-256 | the database moves as AddLogTx says |
| Transactions.TransactionDB.UpdateFrame | tracer/dep_tracer/transientdb.go:246-252 | the database moves as UpdateFrameTx says |
| Transactions.TransactionDB.Commit | tracer/dep_tracer/transientdb.go:105-118 | a commit needs a state; the current overlay is committed into the stores, and the formula caches end up empty |
| Transactions.CommitState | tracer/dep_tracer/transientdb.go:105-118 | the body of Commit: the overlay committed into the stores, then the caches reset |
| Transactions.FinishCommit | tracer/dep_tracer/transientdb.go:114-117 | a successful finish leaves both caches empty, loses no stored formula and stores every uncommitted formula of the logs and the changed return data; if one of those formulas is not cached the finish fails |
| Transactions.CommitLogs | tracer/dep_tracer/transientdb.go:55-62 | a successful commit commits every log's data formula and topic formulas, only adds commits and stored formulas, keeps every short mapping and saves those of the newly committed formulas; a formula of the logs that is not cached makes it fail |
| Transactions.CommitTopics | tracer/dep_tracer/transientdb.go:58-60 | a successful commit adds every topic formula to the ones committed before, with the same progress guarantees as a single commit |
| Transactions.LogLogs | tracer/dep_tracer/transientdb.go:109-111 | the logs are logged in order and the caches stay valid |
| StackedFrames.StackedElementNew | tracer/dep_tracer/stacked.go:20-33 | a new frame has an empty stack and memory and carries exactly the given flag, addresses, version, calldata, code and hashes |
| StackedFrames.ElementCopy | tracer/dep_tracer/stacked.go:35-47 | the intended copy of a frame is the frame itself, every field included |
| StackedFrames.ElementCopyAsWrittenLosesInitcodeHash | tracer/dep_tracer/stacked.go:35-47 | the copy as written sets the init-code hash to zero and keeps every other field, so it equals the original exactly when that hash was already zero |
| StackedFrames.Top | tracer/dep_tracer/stacked.go:75-80 | the current frame is the last one, and there is one exactly when the stack is not empty |
| StackedFrames.PushCurPop | tracer/dep_tracer/stacked.go:70-84 | after a push the current frame is the pushed one, and a pop gives back the frames before the push |
| StackedFrames.Stacked.constructor | tracer/dep_tracer/stacked.go:54-59 | a new stack of frames holds one new frame made from the arguments |
| StackedFrames.Stacked.Copy | tracer/dep_tracer/stacked.go:61-68 | the copy is a fresh object with the same frames |
| StackedFrames.Stacked.Push | tracer/dep_tracer/stacked.go:70-73 | one new frame made from the arguments is appended |
| StackedFrames.Stacked.Cur | tracer/dep_tracer/stacked.go:75-80 | the current frame as Top gives it, failing on an empty stack |
| StackedFrames.Stacked.Pop | tracer/dep_tracer/stacked.go:82-84 | the last frame is removed; on an empty stack the pop fails and nothing changes |
| OpHandlers.NewOPHandlers | tracer/dep_tracer/op_handlers.go:31-123 | the registry maps exactly the opcodes that have a handler, each to its handler (with MSTORE8 and GASPRICE corrected) |
| OpHandlers.RegisterRange | tracer/dep_tracer/op_handlers.go:129-133 | a family registration maps every opcode of the range to the handler and leaves every other entry as it was |
| OpHandlers.MStore8Unregistered | tracer/dep_tracer/op_handlers.go:193-195 | as written MSTORE8 has no handler, although the instruction pops two words the formula stack then keeps; corrected, it has one that pops two |
| OpHandlers.GasPriceOpcode | tracer/dep_tracer/op_handlers.go:1143-1157 | as written GASPRICE's constant is recorded with opcode 0, the init-zero formula's; corrected, with the GASPRICE formula opcode, which differs |
| OpHandlers.CorrectionsOnly | tracer/dep_tracer/op_handlers.go:31-123 | the corrected registry differs from the written one only at MSTORE8 and GASPRICE |
| OpHandlers.MemoryResult | tracer/dep_tracer/op_handlers.go:465-487 | the bytes recorded are exactly size bytes, memory from the offset on and zero past its end (corrected reading, see ## Findings) |
| OpHandlers.MemoryResultAgrees | tracer/dep_tracer/op_handlers.go:465-487 | where the written slice is in range and the sum does not wrap, it gives exactly those bytes |
| OpHandlers.ZeroSizeReturnPanics | tracer/dep_tracer/op_handlers.go:465-477 | a zero-size RETURN at an offset past the end of memory, which the EVM allows, makes the written slice panic |
| OpHandlers.Before | tracer/dep_tracer/op_handlers.go:13-19 | a hook's Before succeeds exactly when the stack holds the words it reads, and returns the handler's direction |
| OpHandlers.StartReturn | tracer/dep_tracer/op_handlers.go:445-504 | STOP, RETURN, REVERT and SELFDESTRUCT hand over one step at once, keep nothing and ask the state database nothing |
| OpHandlers.StartCall | tracer/dep_tracer/op_handlers.go:1359-1563 | a call or create hands over one start step that pops exactly the words the handler reads and pushes nothing, and keeps the matching end step for Exit |
| OpHandlers.FrameStartCounts | tracer/dep_tracer/global.go:422-480 | the steps that open a frame push nothing; a call start pops its word count, a create start three and a create2 start four |
| OpHandlers.StartCallFamily | tracer/dep_tracer/op_handlers.go:1359-1478 | CALL and CALLCODE start with seven words, DELEGATECALL and STATICCALL with six, and keep a call end step |
| OpHandlers.StartCreate | tracer/dep_tracer/op_handlers.go:1479-1520 | CREATE hands over a create start step and keeps a create end step |
| OpHandlers.StartCreate2 | tracer/dep_tracer/op_handlers.go:1521-1563 | CREATE2 hands over a create2 start step and keeps a create2 end step |
| OpHandlers.After | tracer/dep_tracer/op_handlers.go:20-24 | After fails exactly when it must read the top of an empty stack, and hands over nothing for a handler that left or opened a frame |
| OpHandlers.Exit | tracer/dep_tracer/op_handlers.go:25-28 | only a call or create handler hands over anything on exit; its end step then pushes one word and pops none |
| OpHandlers.StepsDelta | tracer/dep_tracer/op_handlers.go:13-29 | over a whole instruction (Before, After and Exit) a handler's steps move the formula stack by the handler's stack effect |
| OpHandlers.StopAgrees | tracer/dep_tracer/op_handlers.go:34-45 | each stop and arithmetic handler agrees with the EVM's instruction: the same stack effect, no extra words read, and the same frame behaviour |
| OpHandlers.ComparisonAgrees | tracer/dep_tracer/op_handlers.go:47-52 | each comparison handler agrees with the EVM's instruction |
| OpHandlers.BitwiseAgrees | tracer/dep_tracer/op_handlers.go:53-60 | each bitwise handler agrees with the EVM's instruction |
| OpHandlers.EnvironmentAgrees | tracer/dep_tracer/op_handlers.go:62-70 | each keccak, account and calldata handler agrees with the EVM's instruction |
| OpHandlers.CodeAgrees | tracer/dep_tracer/op_handlers.go:71-78 | each code and return-data handler agrees with the EVM's instruction |
| OpHandlers.BlockAgrees | tracer/dep_tracer/op_handlers.go:80-90 | each block handler agrees with the EVM's instruction |
| OpHandlers.MemoryStorageAgrees | tracer/dep_tracer/op_handlers.go:92-96 | each stack, memory and storage handler agrees with the EVM's instruction |
| OpHandlers.FlowAgrees | tracer/dep_tracer/op_handlers.go:97-105 | each flow, transient storage and memory copy handler agrees with the EVM's instruction |
| OpHandlers.SystemAgrees | tracer/dep_tracer/op_handlers.go:112-120 | each create, call, return, revert and self-destruct handler agrees with the EVM's instruction |
| OpHandlers.FamilyAgrees | tracer/dep_tracer/op_handlers.go:107-110 | the PUSH, DUP, SWAP and LOG handlers agree with the EVM's instruction for every opcode of their range |
| OpHandlers.RegistryAgrees | tracer/dep_tracer/op_handlers.go:31-123 | every registered handler moves the formula stack as its instruction moves the EVM stack, reads only words the instruction consumes, reads a result only where the instruction leaves one, and leaves or opens a frame exactly for the instructions that do |
| OpHandlers.FamilySizes | tracer/dep_tracer/op_handlers.go:126-1358 | PUSH records 0 to 32 bytes, DUP 1 to 16, SWAP 2 to 17 and LOG 0 to 4 topics, each derived from the opcode |
| OpHandlers.OffsetsClamped | tracer/dep_tracer/op_handlers.go:399-1074 | the code and calldata offsets of CODECOPY, CALLDATACOPY, CALLDATALOAD and EXTCODECOPY keep a word below 2^64 and read a larger one as the largest offset |
| OpHandlers.MemoryOperands | tracer/dep_tracer/op_handlers.go:465-1563 | RETURN, CREATE and CREATE2 record exactly size bytes of memory from the offset, zero past its end, which is what the written slice gives where it is in range |
| OpHandlers.CallLayout | tracer/dep_tracer/op_handlers.go:1359-1478 | each call records its word count, the executing account (the current one for CALLCODE and DELEGATECALL), the callee, the argument and return areas, and asks for the callee's code |
| OpHandlers.QueriesOf | tracer/dep_tracer/op_handlers.go:424-1520 | the state database is asked for the code of the account an EXTCODE* or call names, for the creator's nonce on CREATE, and for nothing else |
| OpHandlers.PrevrandaoChoice | tracer/dep_tracer/op_handlers.go:1616-1639 | PREVRANDAO records the randomness opcode after the merge and the difficulty opcode before it |
| OpHandlers.SelfdestructChoice | tracer/dep_tracer/op_handlers.go:1640-1656 | SELFDESTRUCT records the EIP-6780 variant exactly when the fork flag says so |
| Handles.Popped | tracer/dep_tracer/stack.go:40-44 | n pops succeed exactly when the stack holds n entries; they leave the stack less its top n and give the entries in the order they came off |
| Handles.PushedN | tracer/dep_tracer/stack.go:26-38 | a push of more than 32 bytes panics and any other succeeds |
| Handles.ByteIndex | tracer/dep_tracer/global.go:198-211 | the byte kept is the offset itself below 32 and none (32) for any larger offset |
| Handles.CopiedInto | tracer/dep_tracer/global.go:279-314 | a copy needs three entries; it pops them and writes len bytes of the source from the offset on, init-zero past its end, at the memory offset |
| Handles.FrameStepStack | tracer/dep_tracer/global.go:65-125 | each frame step panics exactly when the stack is too shallow for it, when DUP or SWAP name a depth below one, or when PUSH asks for more than 32 bytes, and otherwise changes the stack height by its pushes less its pops |
| Handles.FrameStepKeepsContext | tracer/dep_tracer/global.go:65-125 | a frame step changes only the frame's stack and memory; its code, calldata and context stay |
| Handles.PushPushesCode | tracer/dep_tracer/global.go:65-73 | PUSH0 pushes 32 init-zero bytes; PUSHn pushes the n immediate bytes after the counter, left-padded to 32, on top of the unchanged stack |
| Handles.ByteSelects | tracer/dep_tracer/global.go:198-211 | BYTE replaces its two operands by one entry: 31 init-zero bytes and the selected byte of the value, or an init-zero byte for an offset of 32 or more |
| Handles.DupSwapEffects | tracer/dep_tracer/global.go:75-81 | DUPn pushes a copy of the n-th entry from the top, and SWAPn done twice changes nothing |
| Handles.MStoreThenMLoad | tracer/dep_tracer/global.go:87-97 | what MSTORE writes at an offset, a later MLOAD at that offset pushes back |
| Handles.MStoreStep | tracer/dep_tracer/global.go:93-97 | MSTORE pops the offset and the value and writes the value at the offset |
| Handles.MLoadStep | tracer/dep_tracer/global.go:87-91 | MLOAD pops the offset and pushes the 32 bytes it reads there |
| Handles.CopyWritesSlice | tracer/dep_tracer/global.go:279-314 | the copy steps write the source bytes from the offset on, init-zero past its end, so a load of that memory range reads them back |
| Handles.HandleFrame | tracer/dep_tracer/global.go:65-125 | a frame step succeeds exactly when there is a frame and the step does not panic, and then replaces the current frame by the step's result |
| Handles.WithFormula | tracer/dep_tracer/depbyte.go:39-46 | the frame loses its top k entries and gains one whose low bytes are the formula's bytes; nothing else changes |
| Handles.Dropped | tracer/dep_tracer/stack.go:40-44 | the frame less its top k entries is what k pops leave |
| Handles.Deps | tracer/dep_tracer/global.go:162-196 | when it succeeds, the formulas are exactly each input's dependency formula (DepOf) under the final cache, in order; the formula cache only grows and the caches stay valid |
| Handles.DepFormulas | tracer/dep_tracer/global.go:162-196 | one dependency formula (DepOf) per input, in order |
| Handles.DepOperands | tracer/dep_tracer/global.go:162-196 | one operand hash per input |
| Handles.Reversed | tracer/dep_tracer/global.go:162-196 | the hashes back to front |
| Handles.ConstantHashes | tracer/dep_tracer/global.go:378-420 | one CONSTANT formula hash per constant, in order |
| Handles.Constants | tracer/dep_tracer/global.go:378-420 | the constants' formulas are made in order and give exactly their hashes |
| Handles.FormulaOver | tracer/dep_tracer/global.go:162-196 | the formula built has the given opcode and result, and as operands the constants' hashes followed by the hashes of each input's dependency formula (DepOf) under the final cache, back to front when asked |
| Handles.PushFormulaOver | tracer/dep_tracer/global.go:162-196 | the frame loses its top k entries and gains the formula over the constants' hashes and the hashes of the named inputs' dependency formulas |
| Handles.NewFormula | tracer/dep_tracer/simpledb.go:228-239 | the formula built is the one FormulaNew gives |
| Handles.NewConstant | tracer/dep_tracer/simpledb.go:205-216 | the constant built is the one ConstantNew gives |
| Handles.PushFormulaOnto | tracer/dep_tracer/depbyte.go:39-46 | the push succeeds exactly when there is a frame and the result fits 32 bytes, and then writes the frame less k entries with the formula pushed |
| Handles.SetContract | tracer/dep_tracer/logger.go:101-107 | the logger's context points at the current frame's account, version, code account and hashes; it fails only with no frame |
| Handles.AddressPart | tracer/dep_tracer/global.go:378-387 | the address an entry carries is its last 20 bytes |
| Handles.HandleArith | tracer/dep_tracer/global.go:162-196 | a unary, binary or ternary step pops its operands and pushes the formula over the dependency formulas of exactly those popped entries, in the order popped, with the recorded value as result; too few entries make it fail |
| Handles.HandleConstant | tracer/dep_tracer/global.go:115-125 | a constant step pushes the constant formula over the recorded bytes |
| Handles.HandleSLoad | tracer/dep_tracer/global.go:127-137 | SLOAD pops the slot, reads the slot's bytes through the overlay and pushes the SLOAD formula over the dependency formulas of the read value and the popped slot, in that order |
| Handles.HandleSStore | tracer/dep_tracer/global.go:139-149 | SSTORE pops the slot and the value and stores in the slot the bytes of the SSTORE formula over the dependency formulas of the popped value and slot, in that order, with the recorded value as result |
| Handles.SetSlotFrom | tracer/dep_tracer/transientdb.go:186-188 | the frame is written, then the slot of its account, failing only with no frame |
| Handles.TLoadFrameAsWritten | tracer/dep_tracer/global.go:151-154 | as written, TLOAD pushes the loaded bytes and leaves the slot operand on the stack |
| Handles.TLoadFrame | tracer/dep_tracer/global.go:151-154 | corrected, TLOAD pops the slot then pushes the loaded bytes |
| Handles.TLoadAsWrittenGrows | tracer/dep_tracer/global.go:151-154 | TLOAD as written grows the formula stack by one although the instruction keeps the EVM stack's height; corrected it keeps it |
| Handles.HandleTLoad | tracer/dep_tracer/global.go:151-154 | TLOAD reads the transient slot and pushes its bytes in place of the slot, failing exactly when the read or the stack does |
| Handles.TStoreTx | tracer/dep_tracer/global.go:156-160 | TSTORE pops the slot and the value and writes the value's bytes into the transient slot |
| Handles.TStoreThenTLoad | tracer/dep_tracer/global.go:151-160 | a TLOAD right after a TSTORE of the same slot reads back the value the store popped |
| Handles.HandleTStore | tracer/dep_tracer/global.go:156-160 | the database moves as TStoreTx says, failing exactly when it does |
| Handles.LoadedFrame | tracer/dep_tracer/memory.go:37-43 | the frame after k pops and a memory load over the range, with the bytes it loaded |
| Handles.HandleKeccak | tracer/dep_tracer/global.go:213-221 | KECCAK256 pops the offset and size, loads those memory bytes, and pushes the KECCAK formula over the loaded bytes' dependency formula, with the recorded hash as result |
| Handles.HandleSize | tracer/dep_tracer/global.go:223-277 | CODESIZE, CALLDATASIZE and RETURNDATASIZE push the SIZE formula over the dependency formula of the frame's code, its calldata or the return data, with the size as 8 big-endian bytes |
| Handles.HandleExtCode | tracer/dep_tracer/global.go:233-257 | EXTCODESIZE and EXTCODEHASH pop the address, read the account's code through the overlay and push the formula over the dependency formulas of the code read and the popped entry's address bytes, in that order |
| Handles.ExtCodeCopied | tracer/dep_tracer/global.go:288-296 | EXTCODECOPY needs four entries; it pops them and copies the account's code into memory |
| Handles.HandleExtCodeCopy | tracer/dep_tracer/global.go:288-296 | EXTCODECOPY reads the account's code through the overlay and writes the frame ExtCodeCopied gives |
| Handles.HandleBalance | tracer/dep_tracer/global.go:378-387 | BALANCE pops an entry and pushes the BALANCE formula over the balance constant and the dependency formula of the popped entry's address bytes |
| Handles.HandleSelfBalance | tracer/dep_tracer/global.go:389-398 | SELFBALANCE pushes the BALANCE formula over the balance and the frame's address, both constants |
| Handles.HandleHashOf | tracer/dep_tracer/global.go:400-420 | BLOCKHASH and BLOBHASH pop the index and push the formula over the hash constant and the popped index's dependency formula |
| Handles.HandleLog | tracer/dep_tracer/global.go:322-334 | LOG pops offset and size, loads the data, pops one entry per topic, and records a log of the loaded data's dependency formula and the dependency formulas of the popped topics, in the order popped |
| Handles.ReturnedTx | tracer/dep_tracer/global.go:336-370 | RETURN and REVERT need two entries; they pop them, load the bytes and return or revert with them |
| Handles.RevertedIsRevert | tracer/dep_tracer/global.go:364-370 | a REVERT drops the current state whatever its frame was and keeps the loaded bytes as return data |
| Handles.HandleReturned | tracer/dep_tracer/global.go:336-370 | the database moves as ReturnedTx says, failing exactly when it does |
| Handles.HandleError | tracer/dep_tracer/global.go:57-63 | an error reverts with no data or returns nothing, as the flag says |
| Handles.SelfdestructedTx | tracer/dep_tracer/global.go:344-362 | SELFDESTRUCT needs the beneficiary entry; it pops it and destructs the frame's account, under EIP-6780 only one created in this transaction |
| Handles.Selfdestructed6780 | tracer/dep_tracer/global.go:354-362 | under EIP-6780 the account lands in the parent's destructed set when it was created in this transaction, and otherwise it only returns |
| Handles.HandleSelfdestruct | tracer/dep_tracer/global.go:348-362 | the database moves as SelfdestructedTx says, failing exactly when it does |
| Handles.CreatedTx | tracer/dep_tracer/global.go:422-450 | CREATE and CREATE2 need their three or four entries; they pop them, load the init code, and create a frame for the new address |
| Handles.CreatedFrames | tracer/dep_tracer/global.go:422-450 | a create puts the caller's frame, popped and with its memory loaded, below a new create frame running the loaded bytes |
| Handles.HandleCreateStart | tracer/dep_tracer/global.go:422-450 | the database moves as CreatedTx says, and the logger then points at the new frame |
| Handles.HandleCreateEnd | tracer/dep_tracer/global.go:433-457 | a create's end pushes the new address as a CREATEADDR or CREATE2ADDR constant and points the logger at the current frame |
| Handles.CalledTx | tracer/dep_tracer/global.go:459-468 | a call needs its n entries; it pops them, loads the input and calls the address running the code address's code |
| Handles.CalledThenReverted | tracer/dep_tracer/global.go:459-468 | a call that reverts gives back the caller's states, with its frame popped and its memory loaded, and the return data |
| Handles.HandleCallStart | tracer/dep_tracer/global.go:459-468 | the database moves as CalledTx says, and the logger then points at the callee's frame |
| Handles.CallWithFrame | tracer/dep_tracer/global.go:459-468 | the caller's frame is replaced, then the call is made as CallTx says |
| Handles.CallEndFrame | tracer/dep_tracer/global.go:470-484 | the first size bytes of the return data are written into the caller's memory at the offset |
| Handles.CallResultByte | tracer/dep_tracer/global.go:476-481 | the call's result byte is 1 exactly on success and 0 exactly on failure |
| Handles.HandleCallEnd | tracer/dep_tracer/global.go:470-484 | a call's end writes the return data into the caller's memory, pushes the CALLRESULT constant and points the logger at the caller's frame |
| Steps.SetupDB | tracer/dep_tracer/global.go:9-33 | a new formula database with one protected definition, crypto, that protects exactly the crypto opcodes; the logging given, or without one the default (final slots short and full, full return data, full logs, Solidity view of final slots); the stores as found |
| Steps.TransactionStart | tracer/dep_tracer/global.go:35-47 | a transaction starts with two states whose current frame is for the address: a create running at the zero code address, or a call running the address's own code; the logger then holds the block's context and points at that frame |
| Steps.TransactionFinish | tracer/dep_tracer/global.go:49-51 | finishing a transaction commits the current state's overlay into the stores |
| Steps.Handle | tracer/dep_tracer/global.go:53-653 | a DataStart step fails; a frame step succeeds exactly when FrameStep succeeds on the current frame, and the transaction then holds that new frame; an error, STOP, RETURN, REVERT, TLOAD, TSTORE, selfdestruct, create start or call start step succeeds exactly when its effect on the transaction (TxEffect) does, and leaves the transaction that effect gives; every step keeps the formula database valid |
| Precompiles.PrecompileAddress | tracer/dep_tracer/pc_handlers.go:33-35 | a precompile's address is nineteen zero bytes then its number |
| Precompiles.NumberAddresses | tracer/dep_tracer/pc_handlers.go:14-30 | every handler sits at a precompile address, and no two handlers share one |
| Precompiles.HandlerAt | tracer/dep_tracer/pc_handlers.go:14-30 | there is a handler for exactly the numbers 1 to 10, each at its own number |
| Precompiles.NewPrecompileHandlers | tracer/dep_tracer/pc_handlers.go:14-30 | the registry holds exactly the addresses 0x01 to 0x0a, each mapped to the handler of that number |
| Precompiles.Register | tracer/dep_tracer/pc_handlers.go:33-35 | a handler's registration adds it at its own address and leaves every other entry as it was |
| Precompiles.ExecuteAsWrittenRipemd | tracer/dep_tracer/pc_handlers.go:58-62 | as written the Ripemd160 call is recorded as a SHA-256 call, and every other handler records its own kind |
| Precompiles.Execute | tracer/dep_tracer/pc_handlers.go:36-159 | each handler records a value of its own kind around the output; ModExp's also carries the three lengths read from the input |
| Precompiles.RightPad | tracer/dep_tracer/pc_handlers.go:80-106 | a byte string at least as long as the length is kept; a shorter one is padded with zeros to the length |
| Precompiles.GetData | tracer/dep_tracer/pc_handlers.go:80-106 | the input window fails exactly when its clamped start plus its size reach 2^64 |
| Precompiles.GetDataWindow | tracer/dep_tracer/pc_handlers.go:80-106 | without wrap-around the window has exactly size bytes: the input's bytes from the start, zero past its end |
| Precompiles.ModExpLengthsOfWords | tracer/dep_tracer/pc_handlers.go:80-106 | with at least 96 input bytes the three lengths are the low 64 bits of the input's first three words |
| Precompiles.ModExpLengthsEmpty | tracer/dep_tracer/pc_handlers.go:80-106 | a call with no input reads every length as zero |
| PrecompileHandles.ZeroHashes | tracer/dep_tracer/global.go:486-537 | n copies of the init-zero formula's hash |
| PrecompileHandles.ZeroArgs | tracer/dep_tracer/global.go:486-537 | the operands loop of EcRecover and Ripemd160 gives exactly n init-zero hashes |
| PrecompileHandles.PairSlices | tracer/dep_tracer/global.go:616-624 | one EcPairing pair is six 32-byte words of calldata from the offset, offsets wrapping as uint64 |
| PrecompileHandles.PairingSlicesCount | tracer/dep_tracer/global.go:616-624 | EcPairing reads six slices per 192 bytes of calldata, a partial last group included |
| PrecompileHandles.PairingInputs | tracer/dep_tracer/global.go:616-624 | the EcPairing loop gives the slices of every pair, in order |
| PrecompileHandles.AdjacentSlices | tracer/dep_tracer/depbyte.go:60-74 | two slices that meet make one |
| PrecompileHandles.Blake2FCoversInput | tracer/dep_tracer/global.go:629-644 | the five Blake2F fields cover the first 213 bytes of the input exactly, in order |
| PrecompileHandles.ModExpCoversInput | tracer/dep_tracer/global.go:544-561 | without wrap-around the base, exponent and modulus slices are consecutive and together cover the input after its 96-byte header |
| PrecompileHandles.PrecompileReturned | tracer/dep_tracer/global.go:486-653 | a precompile returns as many bytes as its output, except EcAdd and EcMul, which return a 64-byte point, and Identity, which returns its calldata unchanged |
| PrecompileHandles.Single | tracer/dep_tracer/global.go:512-537 | one formula's bytes, one per output byte, numbered from zero; too long an output fails |
| PrecompileHandles.Concat20 | tracer/dep_tracer/global.go:486-510 | a 32-byte result with a 20-byte value needs at least 12 bytes, and is numbered from zero |
| PrecompileHandles.PointXY | tracer/dep_tracer/global.go:563-606 | a point needs 64 bytes: the X formula's bytes over the first 32 and the Y formula's over the next 32 |
| PrecompileHandles.InputsOf | tracer/dep_tracer/global.go:486-653 | the calldata slices each precompile depends on, the EcPairing ones from its loop |
| PrecompileHandles.NewConcat20 | tracer/dep_tracer/global.go:486-510 | the bytes built in the database are those Concat20 gives |
| PrecompileHandles.NewPointXY | tracer/dep_tracer/global.go:563-606 | the bytes built in the database are those PointXY gives |
| PrecompileHandles.NewSingle | tracer/dep_tracer/global.go:512-537 | the bytes built in the database are those Single gives |
| PrecompileHandles.NewReturned | tracer/dep_tracer/global.go:486-653 | the bytes built in the database for each precompile are those PrecompileReturned gives, and the formula cache only grows |
| PrecompileHandles.PrecompileBytes | tracer/dep_tracer/global.go:486-653 | the operands are the hashes of the dependency formulas of exactly the calldata slices the precompile reads (PrecompileInputs), in order, and the bytes returned are those PrecompileReturned builds over them |
| PrecompileHandles.HandlePrecompile | tracer/dep_tracer/global.go:486-653 | an empty output of EcRecover, ModExp, EcAdd, EcMul, EcPairing or Blake2F returns nothing; any other precompile returns the bytes built over the dependency formulas of the calldata slices it reads |
| PrecompileHandles.ReturnPrecompile | tracer/dep_tracer/global.go:486-653 | the frame returns the bytes PrecompileReturned builds over the dependency formulas of the calldata slices the precompile reads, with the output as the recorded result |
| DepHandlers.StartFlow | tracer/dep_tracer/handler.go:100-124 | starting a transaction fails exactly when one is already active |
| DepHandlers.EndFlow | tracer/dep_tracer/handler.go:126-134 | ending a transaction fails exactly when none is active; afterwards the handler is deactivated |
| DepHandlers.EnterFlow | tracer/dep_tracer/handler.go:196-203 | recording a callee and its input fails exactly when no transaction is active |
| DepHandlers.FaultStep | tracer/dep_tracer/handler.go:205-219 | a fault fails exactly when no transaction is active |
| DepHandlers.OpcodeStep | tracer/dep_tracer/handler.go:136-194 | an instruction outside a transaction fails; inside one it keeps the handler active and leaves the environment, the callee and its input unchanged |
| DepHandlers.InstructionStep | tracer/dep_tracer/handler.go:154-193 | the part after the pending handler leaves activation, environment, callee and input unchanged |
| DepHandlers.ExitStep | tracer/dep_tracer/handler.go:221-249 | an exit outside a transaction fails; inside one it clears the return-handled flag and keeps the pending handler and the environment |
| DepHandlers.PendingFirst | tracer/dep_tracer/handler.go:146-152 | the pending handler's After steps are handed over first, and afterwards the only pending handler is one this instruction started with direction NONE |
| DepHandlers.Skipped | tracer/dep_tracer/handler.go:154-164 | an error, an invalid or an unregistered instruction starts no handler; only an error hands over a reverted DataError and marks the return handled |
| DepHandlers.RegisteredInstruction | tracer/dep_tracer/handler.go:166-193 | a registered instruction with its operands on the stack never fails: it hands over the pending steps then its Before steps, and a frame-ending one marks the return handled |
| DepHandlers.PendingCompletes | tracer/dep_tracer/handler.go:146-152 | the handler an instruction leaves pending completes at the next hook once the instruction's results are on the stack |
| DepHandlers.ReturnHandledBy | tracer/dep_tracer/handler.go:154-193 | the return is marked handled exactly after an error, or a registered instruction that ends its frame, or an earlier handled return |
| DepHandlers.HandledReturnExit | tracer/dep_tracer/handler.go:226-248 | once the return was handed over, the exit hands over only the Exit of the last pushed call handler, with success meaning no error |
| DepHandlers.FaultThenExit | tracer/dep_tracer/handler.go:205-249 | a REVERT fault changes nothing; any other fault hands over a reverted DataError and the following exit adds no return step of its own |
| DepHandlers.UnhandledReturnExit | tracer/dep_tracer/handler.go:226-238 | an unhandled return with output succeeds exactly when the callee is a precompile, and then hands over that precompile's step; without output it hands over a DataError with the frame's outcome |
| DepHandlers.CallThenExit | tracer/dep_tracer/handler.go:166-193 | a call-family instruction pushes a copy of its handler, and the frame's exit pops it again and hands over that handler's end step |
| DepHandlers.NestedExits | tracer/dep_tracer/handler.go:241-248 | nested frames exit last in first out: the inner call's Exit is handed over first and the outer one's next, restoring the handler stack |
| DepHandlers.TransactionCycle | tracer/dep_tracer/handler.go:100-134 | a transaction starts only outside one and ends only inside one, and ending it gives back the flow it started from |
| DepHandlers.WriterFor | tracer/dep_tracer/handler.go:61-68 | standard output exactly for an empty setting, HTTP exactly for an http:// prefix, a file otherwise, each with the given target |
| DepHandlers.CheckConfig | tracer/dep_tracer/handler.go:47-60 | the configuration is accepted exactly when it is absent or parses, names an engine, and names a root unless the engine is memory or amnesia |
| DepHandlers.NewDepHandler | tracer/dep_tracer/handler.go:36-93 | construction succeeds exactly when the configuration passes the checks, and gives a deactivated handler with both registries and the matching writer |
| DepHandlers.DepHandler.constructor | tracer/dep_tracer/handler.go:78-92 | a fresh handler: deactivated, nothing pending, no state, the two registries |
| DepHandlers.DepHandler.HandOver | tracer/dep_tracer/handler.go:146-248 | each step handed over is appended to the record, in order |
| DepHandlers.DepHandler.StartTransactionRecording | tracer/dep_tracer/handler.go:100-124 | refuses a second activation; otherwise makes the transaction step of the flow and opens a fresh state |
| DepHandlers.DepHandler.EndTransactionRecording | tracer/dep_tracer/handler.go:126-134 | refuses when inactive; otherwise commits the current state's overlay into the database and drops the state |
| DepHandlers.DepHandler.CompletePending | tracer/dep_tracer/handler.go:146-152 | runs the pending handler's After and hands over exactly its steps |
| DepHandlers.DepHandler.StartHandler | tracer/dep_tracer/handler.go:166-192 | hands over the Before steps and switches on the direction as the flow's Dispatch does |
| DepHandlers.DepHandler.SwitchDirection | tracer/dep_tracer/handler.go:168-191 | NONE makes the handler pending, RETURN marks the return handled, CALL pushes its copy |
| DepHandlers.DepHandler.HandleOpcode | tracer/dep_tracer/handler.go:136-194 | refuses when inactive; otherwise the new state and what is handed over are those of OpcodeStep |
| DepHandlers.DepHandler.Instruction | tracer/dep_tracer/handler.go:154-193 | the new state and what is handed over are those of InstructionStep |
| DepHandlers.DepHandler.HandleEnter | tracer/dep_tracer/handler.go:196-203 | succeeds exactly when active, and then records the callee and input as EnterFlow does |
| DepHandlers.DepHandler.HandleFault | tracer/dep_tracer/handler.go:205-219 | refuses when inactive; otherwise the new state and what is handed over are those of FaultStep |
| DepHandlers.DepHandler.FinishReturn | tracer/dep_tracer/handler.go:226-238 | hands over the frame's return step of ReturnStep and clears the flag |
| DepHandlers.DepHandler.PopHandler | tracer/dep_tracer/handler.go:241-248 | with no call handler nothing changes; otherwise pops the last one and hands over its Exit with the frame's outcome |
| DepHandlers.DepHandler.HandleExit | tracer/dep_tracer/handler.go:221-249 | refuses when inactive; otherwise the new state and what is handed over are those of ExitStep |
| LiveDep.EnvOf | tracer/dep.go:175-201 | the handlers see the fork flags of the open block's number and time, and the transaction's nonce lookup |
| LiveDep.BlockStart | tracer/dep.go:108-116 | opening a block panics exactly when one is open; otherwise it is open with the block's number and time |
| LiveDep.BlockEnd | tracer/dep.go:118-124 | afterwards no block is open, and nothing else changes |
| LiveDep.OpenAddress | tracer/dep.go:132-138 | the transaction's address is the created contract's for a create and the recipient otherwise |
| LiveDep.TxStart | tracer/dep.go:126-152 | inside a block a transaction is opened with the VM's configuration and state database; outside one nothing changes |
| LiveDep.TxEnd | tracer/dep.go:154-162 | afterwards no transaction is open; with none open nothing changes |
| LiveDep.OpcodeLive | tracer/dep.go:164-230 | outside a transaction nothing happens; a valid instruction with no handler panics; block and configuration are kept |
| LiveDep.OpcodeLiveSteps | tracer/dep.go:183-229 | after the pending handler, the hook takes the DepHandler's instruction step and sets the protector exactly on SELFDESTRUCT |
| LiveDep.FaultLive | tracer/dep.go:244-259 | a fault never panics |
| LiveDep.BlockCycle | tracer/dep.go:108-124 | blocks alternate: a second start inside a block panics, a start after an end succeeds, and ending twice is ending once |
| LiveDep.Inactive | tracer/dep.go:164-294 | outside a transaction the opcode, enter, fault, exit and end hooks change nothing and hand over nothing |
| LiveDep.SelfdestructSkipsFrame | tracer/dep.go:196-198 | after a handed-over SELFDESTRUCT the frame it reports is skipped: its enter does nothing and its exit only clears the protector |
| LiveDep.AgreesWithHandler | tracer/dep.go:164-230 | except for a valid instruction without a handler, the live hook agrees with the DepHandler's HandleOpcode on outcome, flow and steps |
| LiveDep.MStore8PanicsLive | tracer/dep.go:200-229 | with the registry as written, every MSTORE8 that runs without error makes the live tracer panic, whereas the DepHandler skips it |
| LiveDep.CheckLiveConfig | tracer/dep.go:53-64 | the configuration is accepted exactly when present, parsed, and naming both an engine and a root |
| LiveDep.LiveWriterFor | tracer/dep.go:65-70 | standard output exactly when the output setting is empty, a file of that name otherwise |
| LiveDep.NewDep | tracer/dep.go:43-106 | construction succeeds exactly when the configuration is accepted, giving a Dep outside any block with both registries and the matching writer |
| LiveDep.Dep.constructor | tracer/dep.go:79-95 | a fresh Dep: no block, no transaction, nothing pending, both registries |
| LiveDep.Dep.OnBlockStart | tracer/dep.go:108-116 | succeeds exactly when no block is open, as BlockStart |
| LiveDep.Dep.OnBlockEnd | tracer/dep.go:118-124 | the new state is that of BlockEnd |
| LiveDep.Dep.OnTxStart | tracer/dep.go:126-152 | outside a block nothing changes; inside one the flow is that of TxStart and a fresh state's current frame is at the transaction's address, a create exactly without a recipient |
| LiveDep.Dep.OnTxEnd | tracer/dep.go:154-162 | with no transaction nothing changes; otherwise the current overlay is committed into the stores and the transaction closed |
| LiveDep.Dep.HandOver | tracer/dep.go:174-293 | each step handed over is appended to the record, in order |
| LiveDep.Dep.CompletePending | tracer/dep.go:174-177 | runs the pending handler's After and hands over exactly its steps |
| LiveDep.Dep.StartHandler | tracer/dep.go:200-226 | hands over the Before steps and switches on the direction as the flow's Dispatch does |
| LiveDep.Dep.SwitchDirection | tracer/dep.go:202-225 | NONE makes the handler pending, RETURN marks the return handled, CALL pushes its copy |
| LiveDep.Dep.OnOpcode | tracer/dep.go:164-230 | the new state and the steps handed over are those of OpcodeLive |
| LiveDep.Dep.Instruction | tracer/dep.go:183-229 | a valid instruction without a handler fails; otherwise the new flow and the steps are those of InstructionStep |
| LiveDep.Dep.OnEnter | tracer/dep.go:232-242 | the new state is that of EnterLive |
| LiveDep.Dep.OnFault | tracer/dep.go:244-259 | the new state and the steps handed over are those of FaultLive |
| LiveDep.Dep.FinishReturn | tracer/dep.go:271-284 | hands over the frame's return step of ReturnStep and clears the flag |
| LiveDep.Dep.PopHandler | tracer/dep.go:286-293 | with no call handler nothing changes; otherwise pops the last one and hands over its Exit with the frame's outcome |
| LiveDep.Dep.OnExit | tracer/dep.go:261-294 | the new state and the steps handed over are those of ExitLive |
| LibDep.Library.constructor | tracer/libdep.go:51-57 | the library as loaded: no callback registered, no handler, not tracing |
| LibDep.Library.RegisterGetNonce | tracer/libdep.go:60-63 | the nonce callback becomes the given pointer |
| LibDep.Library.RegisterGetCode | tracer/libdep.go:64-67 | the code callback becomes the given pointer |
| LibDep.Library.RegisterGetSolidityLog | tracer/libdep.go:68-71 | the log callback becomes the given pointer |
| LibDep.Library.GetNonce | tracer/libdep.go:116-120 | succeeds exactly when a nonce callback is registered, and returns what it answers for the packed address |
| LibDep.Library.GetCode | tracer/libdep.go:121-124 | succeeds exactly when a code callback is registered and its answer has a non-negative size, and returns those bytes |
| LibDep.Library.InitDep | tracer/libdep.go:126-132 | succeeds exactly for the first call with a configuration NewDepHandler accepts, giving a fresh deactivated handler |
| LibDep.Library.StartTransactionRecording | tracer/libdep.go:134-148 | switches tracing on first; fails without a handler, with a negative size, or when already active; otherwise the handler's flow is StartFlow's with the registered nonce lookup |
| LibDep.Library.EndTransactionRecording | tracer/libdep.go:150-157 | does nothing unless tracing; otherwise switches tracing off and the handler's flow is EndFlow's |
| LibDep.Library.HandleOpcode | tracer/libdep.go:159-171 | does nothing unless tracing; otherwise the handler takes the OpcodeStep of the unpacked stack, memory and address |
| LibDep.Library.HandleEnter | tracer/libdep.go:173-181 | does nothing unless tracing; otherwise the handler records the unpacked callee and input as EnterFlow does |
| LibDep.Library.HandleFault | tracer/libdep.go:183-189 | does nothing unless tracing; otherwise the handler takes the FaultStep of the opcode |
| LibDep.Library.HandleExit | tracer/libdep.go:191-197 | does nothing unless tracing; otherwise the handler takes the ExitStep of the unpacked output |
| CTypes.PackAddress | tracer/libdep.go:73-79 | the C struct holds the 20 address bytes in order |
| CTypes.UnpackAddress | tracer/libdep.go:80-86 | the address is the C struct's 20 bytes in order |
| CTypes.PackHash | tracer/libdep.go:87-93 | the C struct holds the 32 hash bytes in order |
| CTypes.UnpackHash | tracer/libdep.go:94-100 | the hash is the C struct's 32 bytes in order |
| CTypes.AddressRoundTrip | tracer/libdep.go:73-86 | an address packed for C and unpacked again is the same address |
| CTypes.HashRoundTrip | tracer/libdep.go:87-100 | a hash packed for C and unpacked again is the same hash |
| CTypes.UnpackSizedArray | tracer/libdep.go:101-103 | the copy fails exactly for a negative size; otherwise it is the first size bytes of the C buffer |
| CTypes.WordOf | tracer/libdep.go:108-110 | the word's 32-byte big-endian encoding is the given hash |
| CTypes.Words | tracer/libdep.go:104-114 | one word per C hash, none for a non-positive size, each word encoding its hash big-endian, in array order |
| CTypes.UnpackStack | tracer/libdep.go:104-114 | the unpacked stack is Words of the C stack |
| CTypes.NonceVia | tracer/libdep.go:117-120 | the nonce is available exactly when a callback is registered, and is that callback's answer for the packed address |
| CTypes.CodeVia | tracer/libdep.go:121-124 | the code is available exactly when a callback is registered and its answer has a non-negative size, and is a prefix of that answer's buffer |
| CTypes.NonceOf | tracer/libdep.go:117-120 | the lookup the handler is given agrees with the registered callback whenever one is registered |
| CApi.Library.constructor | tracer/dep_tracer/c_api.go:43-46 | the library as loaded: no callback registered, no handler, not tracing |
| CApi.Library.RegisterGetNonce | tracer/dep_tracer/c_api.go:50-52 | the nonce callback becomes the given pointer |
| CApi.Library.RegisterGetCode | tracer/dep_tracer/c_api.go:54-56 | the code callback becomes the given pointer |
| CApi.Library.GetNonce | tracer/dep_tracer/c_api.go:95-98 | succeeds exactly when a nonce callback is registered, and returns what it answers for the packed address |
| CApi.Library.GetCodeAsWritten | tracer/dep_tracer/c_api.go:99-102 | the code comes from the registered nonce callback, called as a code callback |
| CApi.Library.GetCode | tracer/dep_tracer/c_api.go:99-102 | the code comes from the registered code callback (the intended reading) |
| CApi.GetCodeCallsNonceCallback | tracer/dep_tracer/c_api.go:99-102 | with different nonce and code callbacks, the code as written is the nonce callback's answer, and a registered code callback alone does not serve it |
| CApi.Library.InitDep | tracer/dep_tracer/c_api.go:105-110 | succeeds exactly for the first call with a configuration NewDepHandler accepts, giving a fresh deactivated handler |
| CApi.Library.StartTransactionRecording | tracer/dep_tracer/c_api.go:113-126 | switches tracing on first; fails without a handler, with a negative size, or when already active; otherwise the handler's flow is StartFlow's |
| CApi.Library.EndTransactionRecording | tracer/dep_tracer/c_api.go:129-132 | switches tracing off whether or not it was on, then fails without an active handler; otherwise the handler's flow is EndFlow's |
| CApi.Library.HandleOpcode | tracer/dep_tracer/c_api.go:135-146 | does nothing unless tracing; otherwise the handler takes the OpcodeStep of the unpacked stack, memory and address |
| CApi.Library.HandleEnter | tracer/dep_tracer/c_api.go:149-156 | does nothing unless tracing; otherwise the handler records the unpacked callee and input |
| CApi.Library.HandleFault | tracer/dep_tracer/c_api.go:159-164 | does nothing unless tracing; otherwise the handler takes the FaultStep of the opcode |
| CApi.Library.HandleExit | tracer/dep_tracer/c_api.go:167-172 | does nothing unless tracing; otherwise the handler takes the ExitStep of the unpacked output |
| TraceVm.DefaultSingleton | foundry/tracevm/src/lib.rs:99-182 | the first default of a known type records it, initialises the library once with the trace callback exactly for the trace type, registers both callbacks and is active; a later default is inactive exactly for a trace after a debug one and panics otherwise |
| TraceVm.StartCarries | foundry/tracevm/src/lib.rs:342-389 | the start of a transaction panics exactly when the code of a called address cannot be loaded or the block or timestamp does not fit 64 bits; otherwise it carries the activation hash, the transaction's data, the sender and the frame's address |
| TraceVm.Inactive | foundry/tracevm/src/lib.rs:328-512 | without activation every hook calls nothing into the library and keeps the depth |
| TraceVm.StepReports | foundry/tracevm/src/lib.rs:412-482 | an active instruction is reported once, invalid exactly when revm cannot decode it, with the context's error flag and a stack Go reads back word for word |
| TraceVm.ExitUnchecked | foundry/tracevm/src/lib.rs:391-410 | leaving a frame at depth 0 makes the depth negative and reports an exit without ending the transaction |
| TraceVm.EventCounts | foundry/tracevm/src/lib.rs:342-410 | an active enter or exit moves the depth by one and reports exactly one entry or one exit |
| TraceVm.RunCounts | foundry/tracevm/src/lib.rs:342-410 | over an active run the depth moves by the net number of enters, and every entry and exit is reported |
| TraceVm.FramePrefix | foundry/tracevm/src/lib.rs:342-410 | inside one top-level frame the transaction has started first, with that frame's start, and has not ended |
| TraceVm.Lifecycle | foundry/tracevm/src/lib.rs:342-410 | over one top-level frame the transaction is started exactly once, first, and ended exactly once, last, leaving the depth where it was |
| TraceVm.StorageEventOf | foundry/tracevm/src/lib.rs:293-311 | an event exists exactly for the four storage opcode names |
| TraceVm.Decode | foundry/tracevm/src/lib.rs:282-319 | a record decodes exactly when its JSON, key, value and opcode parse, giving a log at the zero address whose offsets are the joined pairs |
| TraceVm.PushThenPull | foundry/tracevm/src/lib.rs:217-320 | the queue is first in, first out: a pull after a push yields the oldest record decoded and keeps the rest in order |
| TraceVm.PullNothing | foundry/tracevm/src/lib.rs:261-268 | a missing or empty queue yields no log and stays as it is |
| TraceVm.Bridge.constructor | foundry/tracevm/src/lib.rs:322-327 | the statics as the process starts: no type recorded, no activation, no queue, empty cells |
| TraceVm.Bridge.Default | foundry/tracevm/src/lib.rs:99-182 | succeeds exactly when DefaultOf does, with its recorded type, data and library calls |
| TraceVm.Bridge.Activate | foundry/tracevm/src/lib.rs:336-340 | the activation hash becomes the given hash |
| TraceVm.Bridge.GetNonce | foundry/tracevm/src/lib.rs:188-196 | succeeds exactly when the nonce cell can be taken, and returns what it held (corrected reading, see ## Findings) |
| TraceVm.Bridge.GetCode | foundry/tracevm/src/lib.rs:201-212 | succeeds exactly when the code cell can be taken, and returns its bytes as a C array (corrected reading, see ## Findings) |
| TraceVm.Bridge.TraceCallback | foundry/tracevm/src/lib.rs:217-226 | the record goes to the back of the queue |
| TraceVm.Bridge.Pull | foundry/tracevm/src/lib.rs:261-320 | succeeds exactly when PullOf does, with its queue and log |
| TraceVm.Bridge.OnEnter | foundry/tracevm/src/lib.rs:342-389 | succeeds exactly when EnterOf does, with its data and library calls |
| TraceVm.Bridge.OnExit | foundry/tracevm/src/lib.rs:391-410 | the data and library calls are those of ExitOf |
| TraceVm.Bridge.DepStep | foundry/tracevm/src/lib.rs:412-482 | succeeds exactly when StepOf does, with its cells and library calls |
| TraceVm.Bridge.DepStepEnd | foundry/tracevm/src/lib.rs:484-494 | the library calls are those of StepEndOf |
| TraceVm.Bridge.DepCall | foundry/tracevm/src/lib.rs:496-499 | the frame is entered with the call's target and input |
| TraceVm.Bridge.DepCreate | foundry/tracevm/src/lib.rs:505-508 | panics for a creator without a loaded nonce; otherwise it succeeds exactly when entering the frame does, and the frame is entered at revm's created address: for CREATE the address of the creator and its nonce, for CREATE2 the EIP-1014 address of the creator, the salt and the Keccak hash of the init code |
| TraceVm.Bridge.DepFrameEnd | foundry/tracevm/src/lib.rs:501-512 | the frame is left with the outcome's output |
| TraceVm.JoinPairs | foundry/tracevm/src/lib.rs:287-291 | the joined offsets, in order, as JoinOffsets |
| RustBridge.WrapI32 | foundry/tracevm/src/lib.rs:38-43 | the length cast to i32 lies in the i32 range, never exceeds the length, and is the length itself whenever it fits |
| RustBridge.ToCSizedArray | foundry/tracevm/src/lib.rs:38-43 | the C array points at the bytes, and Go reads the same bytes back whenever the length fits an i32 |
| RustBridge.StackToCStack | foundry/tracevm/src/lib.rs:49-58 | the C stack holds one big-endian hash per word, in order |
| RustBridge.StackCrossesIntact | foundry/tracevm/src/lib.rs:49-58 | for a stack whose size fits an i32, Go's unpackStack reads back exactly the revm words, as many and in order |
| RustBridge.SingleUse | foundry/tracevm/src/lib.rs:187-214 | a cell answers exactly when armed, yields the armed value, and a second take without re-arming panics |
| RustBridge.SingleUseAsWritten | foundry/tracevm/src/lib.rs:187-214 | with the stored address as the armed flag, a take succeeds exactly for a non-zero address, yields the value, and the next take panics |
| RustBridge.ArmsOnly | foundry/tracevm/src/lib.rs:418-466 | an undecodable opcode, or one outside EXTCODE*, the call family and CREATE, leaves both cells as they are |
| RustBridge.ArmingThresholds | foundry/tracevm/src/lib.rs:421-461 | EXTCODE* arms the code cell from the top word when the stack holds one, the call family from the second word when it holds two, CREATE arms the nonce cell with the frame's address and nonce |
| RustBridge.PrefetchServes | foundry/tracevm/src/lib.rs:412-482 | for a decodable registered opcode, every state read its Go handler's Before makes is answered by the cell armed for that account with the right value |
| RustBridge.KindServes | foundry/tracevm/src/lib.rs:412-482 | the same for any handler kind that reads for the opcodes that arm cells |
| RustBridge.CellsServe | foundry/tracevm/src/lib.rs:421-461 | the armed cells answer the reads of the account each opcode family names |
| RustBridge.KindOfQueried | tracer/dep_tracer/op_handlers.go:34-120 | the registered handlers that read the state database belong to exactly the opcodes that arm cells |
| RustBridge.ZeroCalleePanicsAsWritten | foundry/tracevm/src/lib.rs:437-451 | as written, a CALL to the zero address arms the code cell with the zero address, which the callback reads as unarmed and panics on, whereas an explicit flag serves it |
| FoundryTracer.TransactionAddress | tracer/extra/mod_foundry.rs:148-196 | a call frame in a transaction without a recipient panics, and every nested frame is entered with the transaction's own address and the frame's input, one level deeper |
| FoundryTracer.StepReports | tracer/extra/mod_foundry.rs:216-277 | with no activation gate, every instruction is reported once, invalid exactly when revm cannot decode it, with the context's error flag and a stack Go reads back word for word |
| FoundryTracer.ZeroCalleePanicsAsWritten | tracer/extra/mod_foundry.rs:118-145 | as written, a code cell `dep_step` arms for a `CALL` to the zero account holds the zero address, so the lookup panics, while the corrected cell serves it |
| FoundryTracer.EventCounts | tracer/extra/mod_foundry.rs:148-214 | each enter or exit moves the depth by one and makes one call: a start or end at depth 0, an entry or exit otherwise |
| FoundryTracer.RunDepth | tracer/extra/mod_foundry.rs:148-214 | over a run the depth moves by the net number of enters, with one call per event |
| FoundryTracer.FramePrefix | tracer/extra/mod_foundry.rs:148-214 | inside one top-level frame the transaction has started first, with the deadbeef hash, and has not ended |
| FoundryTracer.Lifecycle | tracer/extra/mod_foundry.rs:148-214 | over one top-level frame the transaction is started exactly once, first, and ended exactly once, last, leaving the depth where it was |
| FoundryTracer.Bridge.constructor | tracer/extra/mod_foundry.rs:116-145 | both cells empty, no call made |
| FoundryTracer.Bridge.Default | tracer/extra/mod_foundry.rs:84-113 | the data starts at depth 0 and the library is initialised and given both callbacks |
| FoundryTracer.Bridge.GetNonce | tracer/extra/mod_foundry.rs:118-128 | succeeds exactly when the nonce cell is armed, whatever the account, disarms it and returns what it held (corrected reading, see ## Findings) |
| FoundryTracer.Bridge.GetCode | tracer/extra/mod_foundry.rs:130-145 | succeeds exactly when the code cell is armed, whatever the account, disarms it and returns its bytes as a C array (corrected reading, see ## Findings) |
| FoundryTracer.Bridge.OnEnter | tracer/extra/mod_foundry.rs:148-196 | succeeds exactly when EnterOf does, with its data and library calls |
| FoundryTracer.Bridge.OnExit | tracer/extra/mod_foundry.rs:198-214 | the data and library calls are those of ExitOf |
| FoundryTracer.Bridge.DepStep | tracer/extra/mod_foundry.rs:216-277 | succeeds exactly when StepOf does, with its cells and library calls |

## Left out

- DepBytes.FormulaSliceDEPBytes: requires `offset + size < 2^64`; the wrapped sum, which Go would compare after the wrap, is not modelled.
- SolViews.SolViewFuel: the recursion through nested Solidity views carries a fuel of 1024 levels (`SOL_VIEW_FUEL`), and SolViews.SolViewNew fails once it runs out; Go recurses without a bound.
- SimpleDb.SimpleDB.FormulaSliceFuel: the recursion through concatenation formulas carries a fuel bound, `SLICE_FUEL`, and fails once it runs out; Go recurses without a bound.
- SimpleDb.SimpleDB.ConcatSlice: states only that the caches stay valid and only grow; the bytes it returns are not tied to a function.
- SimpleDb.SimpleDB.FormulaSlice: the concatenation case is stated only through ConcatSlice.
- SimpleDb.SimpleDB.GetCode: requires the code store to hold fewer than 2^64 codes, because code indexes are `uint64`.
- Overlays.OverlayDB.GetCode: the same bound on the code store.
- Transactions.TransactionDB.GetCode: the same bound on the code store.
- Steps.TransactionStart: the same bound on the code store.
- Overlays.OverlayDB.Commit: for codes, only the frame condition is stated.
- Transactions.TransactionDB.Commit: states the overlay commit and the emptied caches. What the logs and the return data commit is stated by Transactions.FinishCommit, which it runs.
- Transactions.LogLogs: states only that the formula database stays valid; the written log lines are output.
- Transactions.GetSlotTx: the value read is tied to the overlay only through the lemmas beside it, and so is the value of Transactions.GetTransientTx, Transactions.GetCodeTx and Transactions.GetAddressVersionTx.
- CTypes.NonceOf: fixes the nonce callback when the transaction starts, whereas `StateDBC.GetNonce` (`tracer/dep_tracer/c_api.go:95-98`) reads `getNoncePointer` on every call, so a `RegisterGetNonce` during a transaction is not followed.
- Steps.Handle: for the constant, Keccak, storage, arithmetic, size, account, balance, hash, log, create-end, call-end and precompile steps, it states only that the formula database stays valid. Those steps' own handles in Handles and PrecompileHandles carry their contracts.
- The deep copies (`CopyDEPBytes`, the state and handler copies, the reflection clone) are the identity on values: nothing is shared between a value and its copy.
- Memory offsets are `uint64` values converted to Go `int`; that conversion is not modelled.
- The `Print`, `FullPrint`, `PrintData`, `PrintCommit`, `PrintLogs`, `PrintResults` and `DebugPrint*` functions, hex rendering and JSON rendering are output only.
- Key-value engines (LevelDB, Riak) are maps; only `Get`, with its optional flag, is modelled (Common.DBGet).
- Go map iteration becomes an arbitrary order, which the contracts do not depend on.
- SHA-256 and Keccak-256 are parameters with no properties; RIPEMD-160 and the other precompiles are taken from the interpreter's output.
- The interpreter state (revm's context, journaled state and `OpCode::new`) is an input: the `Context` datatype and its `known` field.
- ABI and JSON decoding of trace records happens over an abstract decoder result; the `sol!` encodings are not modelled.
- Raw pointers, `extern "C"` linkage and the lifetime of buffers passed across the boundary are not modelled; only the content and order of what crosses is.
- Call depth is an unbounded integer; its `i32` overflow is not modelled.
- `DepData::clear` panics and is not modelled.
- A failing `Pull` has already removed its record from the queue; the model keeps that order.
- Configuration strings (the key-value engine, its root, the output and the logger) are fields of the initial configuration.
- After a panic the process aborts, so the state after a failure is left unconstrained where the source has already mutated it.
- The older revision in `mod_foundry.rs` reports the transaction's address for every frame, and panics on a nested call inside a create transaction; it is modelled as written.

## Findings

| source | as written | input that shows it | evidently intended | confidence | as-written member | corrected member |
|---|---|---|---|---|---|---|
| tracer/dep_tracer/crypto_helpers.go:43-54 | `bytesToAddress` fills a copy of the address, because its receiver is a value, and returns the untouched zero address | any digest, for instance 20 bytes of `0x01` | the last 20 bytes of the digest, as the created address | not executed | CryptoHelpers.BytesToAddressAsWrittenLosesInput | CryptoHelpers.BytesToAddress |
| tracer/dep_tracer/c_api.go:99-102 | `GetCode` calls the registered nonce callback, not the code callback | nonce callback 1 and code callback 2: the code comes from callback 1 | the code callback | not executed | CApi.GetCodeCallsNonceCallback | CApi.Library.GetCode |
| tracer/dep_tracer/simpledb.go:158-160 | when the short formula is already committed, `continue` also skips saving the parent's mapping | two parents whose shortened formulas are the same constant: the second parent's mapping is never saved | the mapping of every committed parent is saved | not executed | SimpleDb.SharedShortLosesMapping | SimpleDb.SimpleDB.CommitShorts |
| tracer/dep_tracer/stacked.go:35-47 | `Copy` leaves `initcodeHash` out, so a copied frame has the zero hash | a caller frame with a non-zero init-code hash, after a call that returns | a copy equal to its original | not executed | Transactions.CallThenReturnAsWritten | Transactions.CallThenReturn |
| tracer/dep_tracer/pc_handlers.go:58-62 | the RIPEMD-160 handler records a SHA-256 precompile | any RIPEMD-160 call | a RIPEMD-160 record | not executed | Precompiles.ExecuteAsWrittenRipemd | Precompiles.Execute |
| tracer/dep_tracer/global.go:151-154 | `DataTLoad` pushes the loaded value without popping the slot | any `TLOAD` on a non-empty stack: the formula stack grows by one | pop the slot, then push the value, keeping the depth | not executed | Handles.TLoadAsWrittenGrows | Handles.TLoadFrame |
| tracer/dep_tracer/op_handlers.go:193-195 | `MSTORE8` gets no handler, so its two operands stay on the formula stack | any `MSTORE8` | the `MSTORE8` handler | not executed | OpHandlers.MStore8Unregistered | OpHandlers.HandlerFor |
| tracer/dep_tracer/op_handlers.go:465-487 | the slice of memory for `RETURN` and `CREATE` panics when the offset lies past the end of memory, even for size 0 | empty memory, offset 1, size 0 | the empty result | not executed | OpHandlers.ZeroSizeReturnPanics | OpHandlers.MemoryResultAgrees |
| tracer/dep_tracer/op_handlers.go:1143-1157 | the `GASPRICE` constant is recorded with the init-zero formula's opcode | any `GASPRICE` | the `GASPRICE` opcode | not executed | OpHandlers.GasPriceOpcode | OpHandlers.HandlerFor |
| foundry/tracevm/src/lib.rs:187-214 | a prefetch cell holding the zero address counts as empty, so a lookup of the zero address panics | a `CALL` to the zero address | the armed account is served, whatever its address | not executed | RustBridge.ZeroCalleePanicsAsWritten | RustBridge.PrefetchServes |
| tracer/extra/mod_foundry.rs:118-145 | `get_nonce` and `get_code` take a cell holding the zero address for an empty one, so a lookup of the zero address panics | a `CALL` to the zero address | the armed account is served, whatever its address | not executed | FoundryTracer.ZeroCalleePanicsAsWritten | FoundryTracer.Bridge.GetCode |
