/** The two calls to the Safe services that carry modelled logic:
    getGasEstimation (request record, then a decimal parse of safeTxGas) and
    sendGnosisTx (proposal record, then the status / error-body decision).
    The HTTP exchange and the JSON decoding are a parameter each call
    receives, an oracle that yields the decoded reply or an error. */
module SafeClient {
  import opened Common
  import StrConv
  import Strings

  /** gasEstimationRequest: data and gasToken are JSON null. */
  datatype GasEstimationRequest = GasEstimationRequest(
    to: string,
    value: Int64,
    data: Option<string>,
    operation: int,
    gasToken: Option<string>)

  /** The one field of gasEstimationResponse the flow reads. */
  datatype GasEstimationResponse = GasEstimationResponse(safeTxGas: string)

  /** POST to the estimate endpoint, read the body, decode it. */
  type EstimateCall = (string, GasEstimationRequest) -> Result<GasEstimationResponse, Error>

  /** The estimate request for a plain transfer: destination and value from
      the caller, no call data, a direct call, no gas token. */
  function NewGasEstimationRequest(to: string, value: Int64): (r: GasEstimationRequest)
    ensures r.to == to && r.value == value
    ensures r.data == None && r.gasToken == None && r.operation == CallOperation
  {
    GasEstimationRequest(to, value, None, 0, None)
  }

  /** getGasEstimation: a failed exchange is returned unchanged; otherwise
      the reply's safeTxGas is parsed with strconv.ParseInt(_, 10, 64). */
  function GetGasEstimation(estimate: EstimateCall, to: string, safe: string, value: Int64): Result<Int64, Error> {
    var reply := estimate(safe, NewGasEstimationRequest(to, value));
    if reply.Err? then Err(reply.error)
    else StrConv.ParseInt(reply.value.safeTxGas)
  }

  /** The estimate yields a figure exactly when the exchange succeeds and its
      safeTxGas is an int64 in decimal, and the figure is that number; a
      failed exchange's error comes back unchanged. */
  lemma GetGasEstimationMeaning(estimate: EstimateCall, to: string, safe: string, value: Int64)
    ensures var reply := estimate(safe, NewGasEstimationRequest(to, value));
      var g := GetGasEstimation(estimate, to, safe, value);
      && (g.Ok? <==> reply.Ok? && StrConv.IsDecimal(reply.value.safeTxGas)
                       && MinInt64 <= StrConv.SignedValue(reply.value.safeTxGas) <= MaxInt64)
      && (g.Ok? ==> g.value == StrConv.SignedValue(reply.value.safeTxGas))
      && (reply.Err? ==> g == Err(reply.error))
      && (reply.Ok? && g.Err? ==> g.error.NumericParseError? && g.error.num == reply.value.safeTxGas)
  {
    var reply := estimate(safe, NewGasEstimationRequest(to, value));
    if reply.Ok? {
      StrConv.ParseIntAccepts(reply.value.safeTxGas);
      StrConv.ParseIntRejects(reply.value.safeTxGas);
    }
  }

  /** gnosisTxRequest: the proposal posted to the transaction service. */
  datatype TxRequest = TxRequest(
    to: string,
    value: Int64,
    data: Option<string>,
    operation: int,
    gasToken: string,
    safeTxGas: Int64,
    baseGas: int,
    gasPrice: int,
    refundReceiver: string,
    nonce: Int64,
    contractTransactionHash: string,
    sender: string,
    signature: string,
    origin: Option<string>)

  /** The proposal's fixed fields: a direct call with no call data and no
      origin, no refund (zero base gas and gas price, zero-address gas token
      and refund receiver). */
  predicate HasFixedFields(r: TxRequest) {
    && r.data == None
    && r.operation == CallOperation
    && r.gasToken == ZeroAddress
    && r.baseGas == 0
    && r.gasPrice == 0
    && r.refundReceiver == ZeroAddress
    && r.origin == None
  }

  /** The proposal sendGnosisTx builds: every argument lands in its own field
      and the fixed fields hold whatever the arguments. */
  function NewTxRequest(from: string, to: string, amount: Int64, safeTxGas: Int64, nonce: Int64,
                        hash: string, signature: string): (r: TxRequest)
    ensures HasFixedFields(r)
    ensures r.to == to && r.value == amount && r.safeTxGas == safeTxGas && r.nonce == nonce
    ensures r.contractTransactionHash == hash && r.sender == from && r.signature == signature
  {
    TxRequest(to, amount, None, 0, ZeroAddress, safeTxGas, 0, 0, ZeroAddress, nonce, hash, from, signature, None)
  }

  /** What the transaction service answers: the status code, and what reading
      the body and decoding it as gnosisTxErrResponse would give (its
      nonFieldErrors list, or the read/decode error). */
  datatype HttpReply = HttpReply(status: int, errorBody: Result<seq<string>, Error>)

  /** POST the proposal to the multisig-transactions endpoint. */
  type SubmitCall = (string, TxRequest) -> Result<HttpReply, Error>

  const StatusOK: int := 200

  /** sendGnosisTx after the POST: 200 is success and the body is not looked
      at; any other status is an error, either the body's read/decode error
      or one whose message is nonFieldErrors joined with newlines. */
  function SubmissionResult(reply: HttpReply): Option<Error> {
    if reply.status == StatusOK then None
    else if reply.errorBody.Err? then Some(reply.errorBody.error)
    else Some(Rejected(Strings.Join(reply.errorBody.value, "\n")))
  }

  /** sendGnosisTx: build the proposal, post it, judge the reply. A failed
      POST is returned unchanged. */
  function SendGnosisTx(submit: SubmitCall, from: string, to: string, safe: string, amount: Int64,
                        safeTxGas: Int64, nonce: Int64, hash: string, signature: string): Option<Error> {
    var reply := submit(safe, NewTxRequest(from, to, amount, safeTxGas, nonce, hash, signature));
    if reply.Err? then Some(reply.error) else SubmissionResult(reply.value)
  }

  /** The outcome depends on the status and, off 200, on the error body only:
      200 succeeds whatever the body; every other status fails, with the
      body's read/decode error unchanged or with a message made of the
      list's entries in order, a newline between neighbours (an empty list
      gives an empty message); when no entry holds a newline, the message's
      lines are exactly the entries. */
  lemma SubmissionResultMeaning(reply: HttpReply, other: HttpReply)
    ensures SubmissionResult(reply).None? <==> reply.status == StatusOK
    ensures reply.status == StatusOK && other.status == StatusOK ==>
      SubmissionResult(reply) == SubmissionResult(other)
    ensures reply.status != StatusOK && reply.errorBody.Err? ==>
      SubmissionResult(reply) == Some(reply.errorBody.error)
    ensures reply.status != StatusOK && reply.errorBody.Ok? ==>
      && SubmissionResult(reply).Some? && SubmissionResult(reply).value.Rejected?
      && (reply.errorBody.value == [] ==> SubmissionResult(reply).value.message == "")
      && (|reply.errorBody.value| == 1 ==> SubmissionResult(reply).value.message == reply.errorBody.value[0])
      && (|reply.errorBody.value| > 1 ==>
            var errs := reply.errorBody.value;
            SubmissionResult(reply).value.message == Strings.Join(errs[..|errs| - 1], "\n") + "\n" + errs[|errs| - 1])
      && (reply.errorBody.value != [] && Strings.NoneContains(reply.errorBody.value, '\n') ==>
            Strings.Split(SubmissionResult(reply).value.message, '\n') == reply.errorBody.value)
  {
    if reply.status != StatusOK && reply.errorBody.Ok? && |reply.errorBody.value| > 1 {
      var errs := reply.errorBody.value;
      Strings.JoinSnoc(errs[..|errs| - 1], errs[|errs| - 1], "\n");
      assert errs[..|errs| - 1] + [errs[|errs| - 1]] == errs;
    }
    if reply.status != StatusOK && reply.errorBody.Ok? && reply.errorBody.value != []
       && Strings.NoneContains(reply.errorBody.value, '\n') {
      Strings.SplitJoin(reply.errorBody.value, '\n');
    }
  }

  /** A typical rejection: two validation messages become
      one message with a newline between them. */
  lemma RejectionExample()
    ensures SubmissionResult(HttpReply(400, Ok(["Nonce too low", "Invalid signature"])))
      == Some(Rejected("Nonce too low\nInvalid signature"))
  {
    var elems := ["Nonce too low", "Invalid signature"];
    assert elems[1..] == ["Invalid signature"];
    assert Strings.Join(elems, "\n") == "Nonce too low" + "\n" + "Invalid signature";
    assert "Nonce too low" + "\n" + "Invalid signature" == "Nonce too low\nInvalid signature";
  }
}
