// Opcode numbers: the EVM instruction bytes the tracer dispatches on
// (tracer/dep_tracer/evm_opcodes.go) and the formula opcodes it records
// (tracer/dep_tracer/opcodes_backend.go).
module Opcodes {
  import opened Common

  // ---- EVM instruction bytes ----
  const STOP: Byte := 0x00
  const ADD: Byte := 0x01
  const MUL: Byte := 0x02
  const SUB: Byte := 0x03
  const DIV: Byte := 0x04
  const SDIV: Byte := 0x05
  const MOD: Byte := 0x06
  const SMOD: Byte := 0x07
  const ADDMOD: Byte := 0x08
  const MULMOD: Byte := 0x09
  const EXP: Byte := 0x0a
  const SIGNEXTEND: Byte := 0x0b
  const LT: Byte := 0x10
  const GT: Byte := 0x11
  const SLT: Byte := 0x12
  const SGT: Byte := 0x13
  const EQ: Byte := 0x14
  const ISZERO: Byte := 0x15
  const AND: Byte := 0x16
  const OR: Byte := 0x17
  const XOR: Byte := 0x18
  const NOT: Byte := 0x19
  const BYTE: Byte := 0x1a
  const SHL: Byte := 0x1b
  const SHR: Byte := 0x1c
  const SAR: Byte := 0x1d
  const KECCAK256: Byte := 0x20
  const ADDRESS: Byte := 0x30
  const BALANCE: Byte := 0x31
  const ORIGIN: Byte := 0x32
  const CALLER: Byte := 0x33
  const CALLVALUE: Byte := 0x34
  const CALLDATALOAD: Byte := 0x35
  const CALLDATASIZE: Byte := 0x36
  const CALLDATACOPY: Byte := 0x37
  const CODESIZE: Byte := 0x38
  const CODECOPY: Byte := 0x39
  const GASPRICE: Byte := 0x3a
  const EXTCODESIZE: Byte := 0x3b
  const EXTCODECOPY: Byte := 0x3c
  const RETURNDATASIZE: Byte := 0x3d
  const RETURNDATACOPY: Byte := 0x3e
  const EXTCODEHASH: Byte := 0x3f
  const BLOCKHASH: Byte := 0x40
  const COINBASE: Byte := 0x41
  const TIMESTAMP: Byte := 0x42
  const NUMBER: Byte := 0x43
  /** DIFFICULTY, RANDOM and PREVRANDAO share 0x44. */
  const PREVRANDAO: Byte := 0x44
  const GASLIMIT: Byte := 0x45
  const CHAINID: Byte := 0x46
  const SELFBALANCE: Byte := 0x47
  const BASEFEE: Byte := 0x48
  const BLOBHASH: Byte := 0x49
  const BLOBBASEFEE: Byte := 0x4a
  const POP: Byte := 0x50
  const MLOAD: Byte := 0x51
  const MSTORE: Byte := 0x52
  const MSTORE8: Byte := 0x53
  const SLOAD: Byte := 0x54
  const SSTORE: Byte := 0x55
  const JUMP: Byte := 0x56
  const JUMPI: Byte := 0x57
  const PC: Byte := 0x58
  const MSIZE: Byte := 0x59
  const GAS: Byte := 0x5a
  const JUMPDEST: Byte := 0x5b
  const TLOAD: Byte := 0x5c
  const TSTORE: Byte := 0x5d
  const MCOPY: Byte := 0x5e
  const PUSH0: Byte := 0x5f
  const PUSH32: Byte := 0x7f
  const DUP1: Byte := 0x80
  const DUP16: Byte := 0x8f
  const SWAP1: Byte := 0x90
  const SWAP16: Byte := 0x9f
  const LOG0: Byte := 0xa0
  const LOG4: Byte := 0xa4
  const CREATE: Byte := 0xf0
  const CALL: Byte := 0xf1
  const CALLCODE: Byte := 0xf2
  const RETURN: Byte := 0xf3
  const DELEGATECALL: Byte := 0xf4
  const CREATE2: Byte := 0xf5
  const STATICCALL: Byte := 0xfa
  const REVERT: Byte := 0xfd
  const INVALID: Byte := 0xfe
  const SELFDESTRUCT: Byte := 0xff

  // ---- formula opcodes: constants ----
  const OP_INIT_ZERO: Byte := 0x00
  const OP_INIT_CODE: Byte := 0x01
  const OP_CALL_DATA: Byte := 0x02
  const OP_CONSTANT: Byte := 0x03
  const OP_COINBASE: Byte := 0x04
  const OP_ADDRESS: Byte := 0x05
  const OP_ORIGIN: Byte := 0x06
  const OP_CALLER: Byte := 0x07
  const OP_CALL_VALUE: Byte := 0x08
  const OP_GAS_PRICE: Byte := 0x09
  const OP_TIMESTAMP: Byte := 0x0A
  const OP_NUMBER: Byte := 0x0B
  const OP_DIFFICULTY: Byte := 0x0C
  const OP_RANDOM: Byte := 0x0D
  const OP_GAS_LIMIT: Byte := 0x0E
  const OP_PC: Byte := 0x0F
  const OP_MSIZE: Byte := 0x10
  const OP_GAS: Byte := 0x11
  const OP_CHAIN_ID: Byte := 0x12
  const OP_BASE_FEE: Byte := 0x13
  const OP_CREATE_ADDR: Byte := 0x14
  const OP_CREATE2_ADDR: Byte := 0x15
  const OP_CALL_RESULT: Byte := 0x16
  const OP_BLOB_BASE_FEE: Byte := 0x17

  // ---- formula opcodes: dynamic ----
  const OP_SLICE: Byte := 0xA0
  const OP_CONCAT: Byte := 0xA1
  const OP_SIZE: Byte := 0xA2
  const OP_CODE_SIZE: Byte := 0xA3
  const OP_ADD: Byte := 0xA4
  const OP_MUL: Byte := 0xA5
  const OP_SUB: Byte := 0xA6
  const OP_DIV: Byte := 0xA7
  const OP_SDIV: Byte := 0xA8
  const OP_MOD: Byte := 0xA9
  const OP_SMOD: Byte := 0xAA
  const OP_EXP: Byte := 0xAB
  const OP_SIGN_EXTEND: Byte := 0xAC
  const OP_NOT: Byte := 0xAD
  const OP_LT: Byte := 0xAE
  const OP_GT: Byte := 0xAF
  const OP_SLT: Byte := 0xB0
  const OP_SGT: Byte := 0xB1
  const OP_EQ: Byte := 0xB2
  const OP_OR: Byte := 0xB3
  const OP_XOR: Byte := 0xB4
  const OP_ADD_MOD: Byte := 0xB5
  const OP_MUL_MOD: Byte := 0xB6
  const OP_SHL: Byte := 0xB7
  const OP_SHR: Byte := 0xB8
  const OP_SAR: Byte := 0xB9
  const OP_AND: Byte := 0xBA
  const OP_IS_ZERO: Byte := 0xBB
  const OP_KECCAK: Byte := 0xBC
  const OP_CODE_KECCAK: Byte := 0xBD
  const OP_BALANCE: Byte := 0xBE
  const OP_BLOCK_HASH: Byte := 0xBF
  const OP_EC_RECOVER: Byte := 0xC0
  const OP_SHA256: Byte := 0xC1
  const OP_RIPEMD160: Byte := 0xC2
  const OP_MOD_EXP: Byte := 0xC3
  const OP_EC_ADD_X: Byte := 0xC4
  const OP_EC_ADD_Y: Byte := 0xC5
  const OP_EC_MUL_X: Byte := 0xC6
  const OP_EC_MUL_Y: Byte := 0xC7
  const OP_EC_PAIRING: Byte := 0xC8
  const OP_BLAKE2F: Byte := 0xC9
  const OP_BLOB_HASH: Byte := 0xD0
  const OP_POINT_EVALUATION: Byte := 0xD1

  // ---- formula opcodes: addressable (value, then address) ----
  const OP_SLOAD: Byte := 0xE0
  const OP_SSTORE: Byte := 0xE1
}
