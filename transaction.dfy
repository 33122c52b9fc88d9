/** sendTransaction: fetch the Safe nonce, estimate safeTxGas, hash the Safe
    transaction, sign the digest, submit the proposal. Each step runs only
    if every earlier one succeeded, and the first error is returned as it
    is. Library and network code is the Env record's functions. */
module Transaction {
  import opened Common
  import opened SafeClient
  import opened Digest
  import StrConv

  /** The one field of safeNonceResponse the flow reads. */
  datatype SafeState = SafeState(nonce: Int64)

  /** core.GnosisSafeTx as sendTransaction fills it in. Addresses stay the
      strings given; their HexToAddress conversion happens inside the
      struct-hashing function. */
  datatype SafeTx = SafeTx(
    sender: string,
    safe: string,
    to: string,
    value: int,
    gasPrice: int,
    data: seq<Byte>,
    operation: int,
    gasToken: string,
    refundReceiver: string,
    baseGas: int,
    safeTxGas: int,
    nonce: int)

  /** The two structs of the typed data that get hashed. */
  datatype TypedPart = DomainPart | MessagePart

  /** A parsed secp256k1 private key; its contents only matter to the signer. */
  datatype PrivateKey = PrivateKey(scalar: nat)

  /** The collaborators the flow calls and the model does not look inside. */
  datatype Env = Env(
    getSafe: string -> Result<SafeState, Error>,                 // GET /safes/{safe}, read, decode
    estimate: EstimateCall,                                      // POST estimate, read, decode
    hashStruct: (SafeTx, TypedPart) -> Result<Hash, Error>,      // ToTypedData + HashStruct
    keccak256: seq<Byte> -> Hash,                                // crypto.Keccak256Hash
    hexToECDSA: string -> Result<PrivateKey, Error>,             // crypto.HexToECDSA
    sign: (Hash, PrivateKey) -> Result<Signature, Error>,        // crypto.Sign
    hexEncode: seq<Byte> -> string,                              // hexutil.Encode / Hash.Hex
    submit: SubmitCall)                                          // POST multisig-transactions

  /** A call the flow makes to a collaborator, with its arguments. */
  datatype Step =
    | FetchNonce(safe: string)
    | EstimateGas(safe: string, estimateRequest: GasEstimationRequest)
    | HashDomain(tx: SafeTx)
    | HashMessage(tx: SafeTx)
    | LoadKey(privKey: string)
    | Sign(digest: Hash, key: PrivateKey)
    | Submit(safe: string, proposal: TxRequest)

  /** The returned error (None for nil) and the calls made, in order. */
  datatype Outcome = Outcome(err: Option<Error>, steps: seq<Step>)

  /** The Safe transaction sendTransaction hashes: a direct call with empty
      call data, zero gas price and base gas, and the zero address as gas
      token and refund receiver; the rest comes from the arguments. */
  function NewSafeTx(from: string, safe: string, to: string, amount: Int64, safeTxGas: Int64, nonce: Int64): (tx: SafeTx)
    ensures tx.operation == CallOperation && tx.data == [] && tx.gasPrice == 0 && tx.baseGas == 0
    ensures tx.gasToken == ZeroAddress && tx.refundReceiver == ZeroAddress
    ensures tx.sender == from && tx.safe == safe && tx.to == to && tx.value == amount
    ensures tx.safeTxGas == safeTxGas && tx.nonce == nonce
  {
    SafeTx(from, safe, to, amount, 0, [], 0, ZeroAddress, ZeroAddress, 0, safeTxGas, nonce)
  }

  /** The flow as one expression: each step's Err ends it with that error
      and the steps made so far. */
  function Run(env: Env, from: string, to: string, safe: string, amount: Int64, privKey: string): Outcome {
    var s1 := [FetchNonce(safe)];
    var state := env.getSafe(safe);
    if state.Err? then Outcome(Some(state.error), s1) else
    var nonce := state.value.nonce;
    var s2 := s1 + [EstimateGas(safe, NewGasEstimationRequest(to, amount))];
    var gas := GetGasEstimation(env.estimate, to, safe, amount);
    if gas.Err? then Outcome(Some(gas.error), s2) else
    var tx := NewSafeTx(from, safe, to, amount, gas.value, nonce);
    var s3 := s2 + [HashDomain(tx)];
    var domainHash := env.hashStruct(tx, DomainPart);
    if domainHash.Err? then Outcome(Some(domainHash.error), s3) else
    var s4 := s3 + [HashMessage(tx)];
    var messageHash := env.hashStruct(tx, MessagePart);
    if messageHash.Err? then Outcome(Some(messageHash.error), s4) else
    var digest := TxDigest(env.keccak256, domainHash.value, messageHash.value);
    var s5 := s4 + [LoadKey(privKey)];
    var key := env.hexToECDSA(privKey);
    if key.Err? then Outcome(Some(key.error), s5) else
    var s6 := s5 + [Sign(digest, key.value)];
    var sig := env.sign(digest, key.value);
    if sig.Err? then Outcome(Some(sig.error), s6) else
    var hash := env.hexEncode(digest);
    var signature := env.hexEncode(NormalizedSignature(sig.value));
    var request := NewTxRequest(from, to, amount, gas.value, nonce, hash, signature);
    Outcome(SendGnosisTx(env.submit, from, to, safe, amount, gas.value, nonce, hash, signature),
            s6 + [Submit(safe, request)])
  }

  /** sendTransaction, with its early returns, the appends that build the
      preimage and the in-place fix of the signature's last byte. */
  method SendTransaction(env: Env, from: string, to: string, safe: string, amount: Int64, privKey: string)
    returns (err: Option<Error>, steps: seq<Step>)
    ensures Outcome(err, steps) == Run(env, from, to, safe, amount, privKey)
  {
    steps := [FetchNonce(safe)];
    var state := env.getSafe(safe);
    if state.Err? {
      return Some(state.error), steps;
    }
    var nonce := state.value.nonce;

    steps := steps + [EstimateGas(safe, NewGasEstimationRequest(to, amount))];
    var safeTxGas := GetGasEstimation(env.estimate, to, safe, amount);
    if safeTxGas.Err? {
      return Some(safeTxGas.error), steps;
    }

    var tx := NewSafeTx(from, safe, to, amount, safeTxGas.value, nonce);
    steps := steps + [HashDomain(tx)];
    var domainHash := env.hashStruct(tx, DomainPart);
    if domainHash.Err? {
      return Some(domainHash.error), steps;
    }
    steps := steps + [HashMessage(tx)];
    var primaryTypeHash := env.hashStruct(tx, MessagePart);
    if primaryTypeHash.Err? {
      return Some(primaryTypeHash.error), steps;
    }

    var encodedTx := BuildPreimage(domainHash.value, primaryTypeHash.value);
    var encodedTxHash := env.keccak256(encodedTx);

    steps := steps + [LoadKey(privKey)];
    var privateKey := env.hexToECDSA(privKey);
    if privateKey.Err? {
      return Some(privateKey.error), steps;
    }
    steps := steps + [Sign(encodedTxHash, privateKey.value)];
    var signed := env.sign(encodedTxHash, privateKey.value);
    if signed.Err? {
      return Some(signed.error), steps;
    }
    var raw := signed.value;
    var signature := new Byte[65](i requires 0 <= i < 65 => raw[i]);
    assert signature[..] == raw;
    NormalizeRecoveryId(signature);

    var hash := env.hexEncode(encodedTxHash);
    var sigHex := env.hexEncode(signature[..]);
    steps := steps + [Submit(safe, NewTxRequest(from, to, amount, safeTxGas.value, nonce, hash, sigHex))];
    err := SendGnosisTx(env.submit, from, to, safe, amount, safeTxGas.value, nonce, hash, sigHex);
  }

  // ---------------------------------------------------------------------
  // Properties of the flow.

  /** The position of each kind of call in the fixed order. */
  function StageOf(s: Step): nat {
    match s
    case FetchNonce(_) => 0
    case EstimateGas(_, _) => 1
    case HashDomain(_) => 2
    case HashMessage(_) => 3
    case LoadKey(_) => 4
    case Sign(_, _) => 5
    case Submit(_, _) => 6
  }

  /** The error a call returns, as the flow sees it (None for success). */
  function StepError(env: Env, s: Step): Option<Error> {
    match s
    case FetchNonce(safe) =>
      var r := env.getSafe(safe); if r.Err? then Some(r.error) else None
    case EstimateGas(safe, req) =>
      var r := GetGasEstimation(env.estimate, req.to, safe, req.value); if r.Err? then Some(r.error) else None
    case HashDomain(tx) =>
      var r := env.hashStruct(tx, DomainPart); if r.Err? then Some(r.error) else None
    case HashMessage(tx) =>
      var r := env.hashStruct(tx, MessagePart); if r.Err? then Some(r.error) else None
    case LoadKey(k) =>
      var r := env.hexToECDSA(k); if r.Err? then Some(r.error) else None
    case Sign(d, key) =>
      var r := env.sign(d, key); if r.Err? then Some(r.error) else None
    case Submit(safe, req) =>
      var r := env.submit(safe, req); if r.Err? then Some(r.error) else SubmissionResult(r.value)
  }

  /** The calls happen in the fixed order fetch nonce, estimate gas, hash
      domain, hash message, load key, sign, submit, with none skipped: the
      run is a prefix of that order. Every call but the last succeeded, and
      what the flow returns is exactly the last call's outcome, so the first
      error ends the run and comes back unchanged. A run that stops before
      submitting has failed. */
  lemma RunStopsAtFirstError(env: Env, from: string, to: string, safe: string, amount: Int64, privKey: string)
    ensures var o := Run(env, from, to, safe, amount, privKey);
      && 1 <= |o.steps| <= 7
      && (forall i :: 0 <= i < |o.steps| ==> StageOf(o.steps[i]) == i)
      && (forall i :: 0 <= i < |o.steps| - 1 ==> StepError(env, o.steps[i]).None?)
      && o.err == StepError(env, o.steps[|o.steps| - 1])
      && (|o.steps| < 7 ==> o.err.Some?)
      && (o.err.None? ==> |o.steps| == 7)
  {
    var o := Run(env, from, to, safe, amount, privKey);
    var state := env.getSafe(safe);
    if state.Ok? {
      var gas := GetGasEstimation(env.estimate, to, safe, amount);
      assert o.steps[1] == EstimateGas(safe, NewGasEstimationRequest(to, amount));
      if gas.Ok? {
        var tx := NewSafeTx(from, safe, to, amount, gas.value, state.value.nonce);
        var domainHash := env.hashStruct(tx, DomainPart);
        var messageHash := env.hashStruct(tx, MessagePart);
        if domainHash.Ok? && messageHash.Ok? {
          var key := env.hexToECDSA(privKey);
          var digest := TxDigest(env.keccak256, domainHash.value, messageHash.value);
          if key.Ok? && env.sign(digest, key.value).Ok? {
            assert o.steps[6].Submit?;
          }
        }
      }
    }
  }

  /** The recorded calls use the caller's arguments: the nonce is fetched for
      the caller's Safe, the estimate request carries the caller's destination
      and amount, both hashed structs come from the Safe transaction built
      from the caller's arguments with the fetched nonce and the parsed
      safeTxGas, the digest signed is Keccak-256 of the preimage of the two
      struct hashes, the key loaded is the caller's privKey, and the digest
      is signed with the key parsed from it. */
  lemma RunCallsUseArguments(env: Env, from: string, to: string, safe: string, amount: Int64, privKey: string)
    ensures var o := Run(env, from, to, safe, amount, privKey);
      && |o.steps| > 0 && o.steps[0] == FetchNonce(safe)
      && (|o.steps| > 1 ==> o.steps[1] == EstimateGas(safe, NewGasEstimationRequest(to, amount)))
      && (|o.steps| > 2 ==>
            && env.getSafe(safe).Ok? && GetGasEstimation(env.estimate, to, safe, amount).Ok?
            && o.steps[2].HashDomain?
            && o.steps[2].tx == NewSafeTx(from, safe, to, amount, GetGasEstimation(env.estimate, to, safe, amount).value,
                                          env.getSafe(safe).value.nonce))
      && (|o.steps| > 3 ==> o.steps[3].HashMessage? && o.steps[3].tx == o.steps[2].tx)
      && (|o.steps| > 5 ==>
            && env.hashStruct(o.steps[2].tx, DomainPart).Ok? && env.hashStruct(o.steps[2].tx, MessagePart).Ok?
            && o.steps[5].Sign?
            && o.steps[5].digest == TxDigest(env.keccak256, env.hashStruct(o.steps[2].tx, DomainPart).value,
                                             env.hashStruct(o.steps[2].tx, MessagePart).value))
      && (|o.steps| > 4 ==> o.steps[4] == LoadKey(privKey))
      && (|o.steps| > 5 ==> o.steps[5].Sign? && env.hexToECDSA(privKey) == Ok(o.steps[5].key))
      && (|o.steps| > 6 ==> o.steps[6].Submit? && o.steps[6].safe == safe)
  {
  }

  /** When the proposal is submitted, it carries what the earlier steps
      produced: the fetched nonce and the parsed safeTxGas, the same ones the
      hashed Safe transaction holds; as hash, the encoding of the digest that
      was signed, which is Keccak-256 of [1, 19] ++ domain hash ++ message hash
      of that transaction, signed with the key parsed from the caller's
      privKey; as signature, the encoding of the signer's output with its
      recovery byte normalised; and the caller's sender, destination and
      amount. The hashed transaction is the one NewSafeTx builds from those
      figures, so its fixed fields hold. */
  lemma SubmittedProposalCarriesSignedDigest(env: Env, from: string, to: string, safe: string, amount: Int64, privKey: string)
    ensures var o := Run(env, from, to, safe, amount, privKey);
      |o.steps| == 7 ==>
        var req := o.steps[6].proposal;
        var tx := o.steps[3].tx;
        var digest := o.steps[5].digest;
        && o.steps[0] == FetchNonce(safe)
        && o.steps[1] == EstimateGas(safe, NewGasEstimationRequest(to, amount))
        && o.steps[2].tx == tx
        && tx == NewSafeTx(from, safe, to, amount, req.safeTxGas, req.nonce)
        && o.steps[4] == LoadKey(privKey) && env.hexToECDSA(privKey) == Ok(o.steps[5].key)
        && o.steps[6].safe == safe
        && env.getSafe(safe).Ok? && req.nonce == env.getSafe(safe).value.nonce == tx.nonce
        && GetGasEstimation(env.estimate, to, safe, amount) == Ok(req.safeTxGas)
        && req.safeTxGas == tx.safeTxGas
        && env.hashStruct(tx, DomainPart).Ok? && env.hashStruct(tx, MessagePart).Ok?
        && digest == env.keccak256(Prefix + env.hashStruct(tx, DomainPart).value + env.hashStruct(tx, MessagePart).value)
        && req.contractTransactionHash == env.hexEncode(digest)
        && env.sign(digest, o.steps[5].key).Ok?
        && req.signature == env.hexEncode(NormalizedSignature(env.sign(digest, o.steps[5].key).value))
        && req.sender == from && req.to == to && req.value == amount
        && tx.sender == from && tx.to == to && tx.value == amount && tx.safe == safe
        && HasFixedFields(req)
  {
    RunStopsAtFirstError(env, from, to, safe, amount, privKey);
    RunCallsUseArguments(env, from, to, safe, amount, privKey);
  }

  /** The flow succeeds exactly when every step succeeds and the service
      answers 200. */
  lemma RunSucceedsIffAllStepsSucceed(env: Env, from: string, to: string, safe: string, amount: Int64, privKey: string)
    ensures var o := Run(env, from, to, safe, amount, privKey);
      o.err.None? <==>
        && |o.steps| == 7
        && env.submit(safe, o.steps[6].proposal).Ok?
        && env.submit(safe, o.steps[6].proposal).value.status == StatusOK
  {
    RunStopsAtFirstError(env, from, to, safe, amount, privKey);
  }

  /** An end-to-end run: nonce 5 and an estimate of "21000" for a
      transfer of 1000000. When hashing, key parsing and signing succeed and
      the signer's raw recovery byte is 0 or 1, the proposal is submitted with
      nonce 5 and safeTxGas 21000, the hashed transaction holds the same two
      figures, and the signature's last byte is 27 or 28. */
  lemma EndToEndExample(env: Env, from: string, to: string, safe: string, privKey: string, key: PrivateKey)
    requires env.getSafe(safe) == Ok(SafeState(5))
    requires env.estimate(safe, NewGasEstimationRequest(to, 1000000)) == Ok(GasEstimationResponse("21000"))
    requires env.hashStruct(NewSafeTx(from, safe, to, 1000000, 21000, 5), DomainPart).Ok?
    requires env.hashStruct(NewSafeTx(from, safe, to, 1000000, 21000, 5), MessagePart).Ok?
    requires env.hexToECDSA(privKey) == Ok(key)
    requires forall d: Hash :: env.sign(d, key).Ok? && env.sign(d, key).value[64] in {0, 1}
    ensures var o := Run(env, from, to, safe, 1000000, privKey);
      && |o.steps| == 7
      && o.steps[6].proposal.nonce == 5 && o.steps[6].proposal.safeTxGas == 21000
      && o.steps[3].tx.nonce == 5 && o.steps[3].tx.safeTxGas == 21000
      && NormalizedSignature(env.sign(o.steps[5].digest, key).value)[64] in {27, 28}
  {
    StrConv.ParseIntGasExample();
    RunStopsAtFirstError(env, from, to, safe, 1000000, privKey);
    SubmittedProposalCarriesSignedDigest(env, from, to, safe, 1000000, privKey);
  }
}
