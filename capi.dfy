// The C entry points kept inside the dep_tracer package
// (tracer/dep_tracer/c_api.go): the same package-level state and exports as
// the standalone library, without the Solidity log callback, with an
// `EndTransactionRecording` that always reaches the handler, and with a
// `StateDBC.GetCode` that calls through the nonce callback.
module CApi {
  import opened Common
  import opened CTypes
  import opened DepHandlers

  class Library {
    var getNoncePointer: Option<FnPointer>
    var getCodePointer: Option<FnPointer>
    var cDepHandler: DepHandler?
    var cTracing: bool
    /** The C program that registers the callbacks. */
    const host: Host
    /** The hash functions and opcode classifications the handler is built with. */
    const p: Prims
    /** The handler and the database objects it changes. */
    ghost var Repr: set<object>

    ghost predicate Valid()
      reads this`cDepHandler, this`Repr, Repr
    {
      && this !in Repr
      && (cDepHandler != null ==>
            && cDepHandler in Repr && cDepHandler.db in Repr && cDepHandler.db.logger in Repr
            && (forall o :: o in cDepHandler.db.shorts ==> o in Repr)
            && (cDepHandler.state != null ==> cDepHandler.state in Repr)
            && cDepHandler.Valid() && cDepHandler.Wired() && cDepHandler.db.p == p)
    }

    /** The library as loaded: nothing registered, no handler, not tracing. */
    constructor (host: Host, p: Prims)
      ensures Valid() && this.host == host && this.p == p
      ensures getNoncePointer == None && getCodePointer == None
      ensures cDepHandler == null && !cTracing
    {
      getNoncePointer := None;
      getCodePointer := None;
      cDepHandler := null;
      cTracing := false;
      this.host := host;
      this.p := p;
      Repr := {};
    }

    method RegisterGetNonce(pointer: Option<FnPointer>)
      requires Valid()
      modifies this`getNoncePointer
      ensures Valid() && getNoncePointer == pointer
    {
      getNoncePointer := pointer;
    }

    method RegisterGetCode(pointer: Option<FnPointer>)
      requires Valid()
      modifies this`getCodePointer
      ensures Valid() && getCodePointer == pointer
    {
      getCodePointer := pointer;
    }

    /** `StateDBC.GetNonce`: the registered nonce callback on the packed address. */
    method GetNonce(addr: Address) returns (ok: bool, nonce: U64)
      ensures ok <==> getNoncePointer.Some?
      ensures ok ==> nonce == host.nonce(getNoncePointer.value)(CAddress(addr))
      ensures ok ==> nonce == NonceOf(host, getNoncePointer)(addr)
    {
      var c := PackAddress(addr);
      if getNoncePointer.None? {
        return false, 0;
      }
      ok, nonce := true, host.nonce(getNoncePointer.value)(c);
    }

    /** `StateDBC.GetCode` as written: the nonce callback, called as if it were a code callback. */
    method GetCodeAsWritten(addr: Address) returns (ok: bool, code: seq<Byte>)
      ensures ok <==> CodeVia(host, getNoncePointer, addr).Ok?
      ensures ok ==> code == CodeVia(host, getNoncePointer, addr).value
    {
      var c := PackAddress(addr);
      if getNoncePointer.None? {
        return false, [];
      }
      var r := UnpackSizedArray(host.code(getNoncePointer.value)(c));
      if r.Fail? {
        return false, [];
      }
      ok, code := true, r.value;
    }

    /** `StateDBC.GetCode` as intended: the registered code callback on the packed address, copied into Go. */
    method GetCode(addr: Address) returns (ok: bool, code: seq<Byte>)
      ensures ok <==> CodeVia(host, getCodePointer, addr).Ok?
      ensures ok ==> code == CodeVia(host, getCodePointer, addr).value
    {
      var c := PackAddress(addr);
      if getCodePointer.None? {
        return false, [];
      }
      var r := UnpackSizedArray(host.code(getCodePointer.value)(c));
      if r.Fail? {
        return false, [];
      }
      ok, code := true, r.value;
    }

    /** `InitDep`: the one DepHandler; a second call panics. */
    method InitDep(cfg: Option<Result<Config>>, stores: Stores) returns (ok: bool)
      requires Valid()
      modifies this`cDepHandler, this`Repr
      ensures old(cDepHandler) != null ==> !ok
      ensures ok <==> old(cDepHandler) == null && CheckConfig(cfg).Ok?
      ensures ok ==> Valid() && cDepHandler != null && fresh(cDepHandler)
      ensures ok ==> cDepHandler.Value() == Initial(p) && cDepHandler.handed == []
    {
      if cDepHandler != null {
        return false;
      }
      var h: DepHandler?;
      ok, h := NewDepHandler(p, cfg, stores);
      if !ok {
        return;
      }
      cDepHandler := h;
      Repr := {h, h.db, h.db.logger} + (set o | o in h.db.shorts);
    }

    /**
     * `StartTransactionRecording`: tracing is switched on first, then the
     * arguments are copied and the handler starts the transaction with the
     * registered nonce callback as its state database.
     */
    method StartTransactionRecording(isCreate: bool, addr: CAddress, input: CSizedArray, block: U64,
                                     timestamp: U64, origin: CAddress, txHash: CHash, code: CSizedArray,
                                     isSelfdestruct6780: bool, isRandom: bool) returns (ok: bool)
      requires Valid()
      modifies this`cTracing, this`Repr, Repr
      ensures cTracing
      ensures old(cDepHandler) == null || input.size < 0 || code.size < 0 ==> !ok
      ensures old(cDepHandler) != null && old(cDepHandler.activated) ==> !ok
      ensures ok ==> Valid() && cDepHandler == old(cDepHandler) && cDepHandler.handed == old(cDepHandler.handed)
      ensures ok ==> StartFlow(old(cDepHandler.Value()), isSelfdestruct6780, isRandom, NonceOf(host, getNoncePointer))
                     == Ok(cDepHandler.Value())
    {
      cTracing := true;
      if cDepHandler == null {
        return false;
      }
      var a := UnpackAddress(addr);
      var bytes := UnpackSizedArray(input);
      if bytes.Fail? {
        return false;
      }
      var o := UnpackAddress(origin);
      var tx := UnpackHash(txHash);
      var c := UnpackSizedArray(code);
      if c.Fail? {
        return false;
      }
      ok := cDepHandler.StartTransactionRecording(isCreate, a, bytes.value, block, timestamp, o, tx, c.value,
                                                  isSelfdestruct6780, isRandom, NonceOf(host, getNoncePointer));
      if ok {
        Repr := Repr + {cDepHandler.state};
      }
    }

    /**
     * `EndTransactionRecording`: tracing off and the handler commits, whether
     * or not tracing was on; an End without its Start reaches the handler's
     * panic.
     */
    method EndTransactionRecording() returns (ok: bool)
      requires Valid()
      modifies this`cTracing, Repr
      ensures !cTracing
      ensures old(cDepHandler) == null || !old(cDepHandler.activated) ==> !ok
      ensures ok ==> Valid() && cDepHandler.state == null && cDepHandler.handed == old(cDepHandler.handed)
      ensures ok ==> EndFlow(old(cDepHandler.Value())) == Ok(cDepHandler.Value())
    {
      cTracing := false;
      if cDepHandler == null {
        return false;
      }
      ok := cDepHandler.EndTransactionRecording();
    }

    /** `HandleOpcode`: nothing unless tracing; otherwise the copied stack, memory and address go to the handler. */
    method HandleOpcode(stack: CStack, memory: CSizedArray, addr: CAddress, pc: U64, op: Byte,
                        isInvalid: bool, hasError: bool) returns (ok: bool)
      requires Valid()
      modifies Repr
      ensures !old(cTracing) ==> ok && unchanged(Repr)
      ensures old(cTracing) && (old(cDepHandler) == null || memory.size < 0) ==> !ok
      ensures old(cTracing) && ok ==> Valid() && memory.size >= 0
      ensures old(cTracing) && ok ==>
        var r := OpcodeStep(old(cDepHandler.Value()), cDepHandler.opHandlers, Words(stack), memory.data[..memory.size],
                            addr.data, pc, op, isInvalid, hasError);
        r.Ok? && cDepHandler.Value() == r.value.0 && cDepHandler.handed == old(cDepHandler.handed) + r.value.1
    {
      if !cTracing {
        return true;
      }
      if cDepHandler == null {
        return false;
      }
      var s := UnpackStack(stack);
      var m := UnpackSizedArray(memory);
      if m.Fail? {
        return false;
      }
      var a := UnpackAddress(addr);
      ok := cDepHandler.HandleOpcode(s, m.value, a, pc, op, isInvalid, hasError);
    }

    /** `HandleEnter`: nothing unless tracing; otherwise the callee and its input go to the handler. */
    method HandleEnter(to: CAddress, input: CSizedArray) returns (ok: bool)
      requires Valid()
      modifies Repr
      ensures !old(cTracing) ==> ok && unchanged(Repr)
      ensures old(cTracing) && (old(cDepHandler) == null || input.size < 0) ==> !ok
      ensures old(cTracing) && ok ==> Valid() && input.size >= 0
      ensures old(cTracing) && ok ==>
        EnterFlow(old(cDepHandler.Value()), to.data, input.data[..input.size]) == Ok(cDepHandler.Value())
        && cDepHandler.handed == old(cDepHandler.handed)
    {
      if !cTracing {
        return true;
      }
      if cDepHandler == null {
        return false;
      }
      var t := UnpackAddress(to);
      var bytes := UnpackSizedArray(input);
      if bytes.Fail? {
        return false;
      }
      ok := cDepHandler.HandleEnter(t, bytes.value);
    }

    /** `HandleFault`: nothing unless tracing; otherwise the faulting opcode goes to the handler. */
    method HandleFault(op: Byte) returns (ok: bool)
      requires Valid()
      modifies Repr
      ensures !old(cTracing) ==> ok && unchanged(Repr)
      ensures old(cTracing) && old(cDepHandler) == null ==> !ok
      ensures old(cTracing) && ok ==> Valid()
      ensures old(cTracing) && ok ==> var r := FaultStep(old(cDepHandler.Value()), op);
        r.Ok? && cDepHandler.Value() == r.value.0 && cDepHandler.handed == old(cDepHandler.handed) + r.value.1
    {
      if !cTracing {
        return true;
      }
      if cDepHandler == null {
        return false;
      }
      ok := cDepHandler.HandleFault(op);
    }

    /** `HandleExit`: nothing unless tracing; otherwise the copied output goes to the handler. */
    method HandleExit(output: CSizedArray, hasError: bool) returns (ok: bool)
      requires Valid()
      modifies Repr
      ensures !old(cTracing) ==> ok && unchanged(Repr)
      ensures old(cTracing) && (old(cDepHandler) == null || output.size < 0) ==> !ok
      ensures old(cTracing) && ok ==> Valid() && output.size >= 0
      ensures old(cTracing) && ok ==>
        var r := ExitStep(old(cDepHandler.Value()), cDepHandler.pcHandlers, output.data[..output.size], hasError);
        r.Ok? && cDepHandler.Value() == r.value.0 && cDepHandler.handed == old(cDepHandler.handed) + r.value.1
    {
      if !cTracing {
        return true;
      }
      if cDepHandler == null {
        return false;
      }
      var out := UnpackSizedArray(output);
      if out.Fail? {
        return false;
      }
      ok := cDepHandler.HandleExit(out.value, hasError);
    }
  }

  /** A C program whose code callback at pointer `p` returns the one byte `p`. */
  function TaggedHost(): Host
  {
    Host((p: FnPointer) => (a: CAddress) => 0,
         (p: FnPointer) => (a: CAddress) => SizedArray([p % 256], 1))
  }

  /**
   * With the nonce callback at 1 and the code callback at 2, the code as
   * written comes from the function at 1, where the intended one comes from
   * the function at 2; with no nonce callback it fails outright.
   */
  lemma GetCodeCallsNonceCallback(addr: Address)
    ensures CodeVia(TaggedHost(), Some(1), addr) == Ok([1])
    ensures CodeVia(TaggedHost(), Some(2), addr) == Ok([2])
    ensures CodeVia(TaggedHost(), None, addr).Fail? && CodeVia(TaggedHost(), Some(2), addr).Ok?
  {
    var c := CAddress(addr);
    assert TaggedHost().code(1)(c) == SizedArray([1], 1);
    assert TaggedHost().code(2)(c) == SizedArray([2], 1);
    assert [1][..1] == [1] && [2][..1] == [2];
  }
}
