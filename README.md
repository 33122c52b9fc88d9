# Gnosis Safe proposal flow: a Dafny model

This project models the deterministic core of `main.go` from gnosis-tx. That
program proposes a single transfer from a Gnosis Safe multisig account to the
Safe transaction service. The flow has five steps:

1. Fetch the Safe's current nonce.
2. Ask the relay service for a gas estimate. The returned `safeTxGas` decimal string is parsed into an int64.
3. Build the Safe transaction and hash its EIP-712 domain and message structs. The digest is
   Keccak-256 of the bytes `[1, 19] ++ domainHash ++ messageHash`.
4. Sign the digest. Then rewrite the recovery byte (byte 64) of the signature from 0/1 to 27/28.
5. Post the proposal. HTTP 200 is success. Any other status is an error whose message is the
   service's `nonFieldErrors` joined with newlines.

## Modules

- `common.dfy` (`Common`): int64 and byte ranges, 32-byte hashes, 65-byte signatures, `Option`/`Result`, the error kinds, and the zero-address sentinel `ZeroAddress` (`ZERO_ADDR`, main.go:21).
- `strconv.dfy` (`StrConv`): `strconv.ParseInt(s, 10, 64)`. Go's ParseUint digit loop is kept as a recursive function with its cut-offs. The lemmas characterise it by an independent definition: optionally signed decimal strings and their values.
- `strings.dfy` (`Strings`): `strings.Join`, with `Split` as its inverse.
- `digest.dfy` (`Digest`): the preimage layout and its `append`-based construction. It also holds recovery-byte normalisation on a signature `array`, done in place.
- `safe_client.dfy` (`SafeClient`): `getGasEstimation` and `sendGnosisTx`. Their request records, the estimate parse, and the status/error-body decision.
- `transaction.dfy` (`Transaction`): `sendTransaction`.
  - The method `SendTransaction` mirrors the Go code's early returns.
  - It is proved equal to the function `Run`, which states the same flow as one expression.
  - Lemmas about `Run` cover step order, short-circuiting, and the data that flows into the submitted proposal.

Everything outside the modelled code is a field of the `Env` record: a function the flow calls but does not look inside. This covers the network exchanges with their body reading and JSON decoding, EIP-712 struct hashing, Keccak-256, key parsing, signing, and hex encoding. Each `Env` field that can fail returns a `Result`. `Run` and `SendTransaction` also return the calls made to `Env`, in order, as a `Step` list. This is how the model states which steps ran.

The digest prefix is kept exactly as the code writes it: bytes 1 and 19 (`0x01 0x13`). EIP-712 prescribes `0x19 0x01`. `Digest.PrefixIsNotEip712` records that the two differ. The model follows the code. Which prefix the service checks against is not visible in main.go; EIP-712 uses 0x19 0x01, so a digest built with [1, 19] may differ from the one the service recomputes.

Three behaviours of the code to note:
- The error from a failed collaborator is passed on unchanged. No errors are reclassified.
- A non-200 reply whose body decodes to an empty or missing `nonFieldErrors` still counts as a failure. Its message is empty.
- `safeTxGas` is sent to the service as an integer field, not as a string.

## Model

| member | source | states |
|---|---|---|
| StrConv.ScanUintMeaning | main.go:102 | From any point inside the leading digit run, ParseUint's loop ends as follows: a range error if that run's value exceeds 2^64-1; otherwise a syntax error if a non-digit follows the run; otherwise the decimal value of the whole string |
| StrConv.ParseUintMeaning | main.go:102 | ParseUint: "" is a syntax error, otherwise it behaves as described for ScanUintMeaning |
| StrConv.ParseIntAccepts | main.go:102-105 | ParseInt succeeds exactly on an optionally signed non-empty digit string whose value lies in [-2^63, 2^63-1], and it returns that value |
| StrConv.ParseIntRejects | main.go:102-105 | Every failure is a NumericParseError naming the whole input. It is a syntax error exactly for empty text, a bare sign, or a non-digit after a digit run that fits in uint64. A well-formed number outside int64 is a range error |
| StrConv.ParseIntGasExample | main.go:102 | "21000" parses to 21000 |
| StrConv.ParseIntNonNumericExample | main.go:102-105 | "abc" is a syntax error |
| Strings.Join | main.go:173 | Joining no messages gives the empty string; otherwise the result starts with the first message |
| Strings.JoinSnoc | main.go:173 | Joining one more message appends the separator and then that message, so the result is every message in order with the separator between neighbours |
| Strings.SplitJoin | main.go:173 | Splitting the joined message at '\n' recovers the original non-empty list, provided no entry contains a newline |
| Strings.JoinLength | main.go:173 | The joined message is as long as all the entries plus one separator between each neighbouring pair |
| Digest.BuildPreimage | main.go:220-222 | The appended buffer is [1, 19], then the domain hash, then the message hash: 66 bytes, with each part at its fixed offset |
| Digest.PreimageRoundTrip | main.go:220-222 | The 66-byte layout can be read back into its two hashes, and every buffer that reads back equals the one rebuilt from those hashes |
| Digest.PreimageInjective | main.go:220-224 | Different (domain hash, message hash) pairs never give the same preimage, so the digest depends on both hashes through an unambiguous encoding |
| Digest.PrefixIsNotEip712 | main.go:220 | The prefix [1, 19] differs from EIP-712's [0x19, 0x01] in both bytes and in their order |
| Digest.NormalizedVProperties | main.go:239-241 | 0 becomes 27 and 1 becomes 28, and every other byte is unchanged. The result is in {27, 28} exactly when the input was in {0, 1, 27, 28}. Applying the normalisation twice gives the same result as applying it once |
| Digest.NormalizedSignature | main.go:239-241 | The length is kept and every byte except byte 64 is unchanged. Byte 64 ends up in {27, 28} exactly when it was in {0, 1, 27, 28} |
| Digest.NormalizeRecoveryId | main.go:239-241 | The in-place update turns byte 64 from 0 into 27 and from 1 into 28, and leaves any other value alone. Bytes 0..63 are not modified |
| SafeClient.NewGasEstimationRequest | main.go:74-80 | The estimate request copies `to` and `value`. Data and gas token are null and the operation is 0 |
| SafeClient.GetGasEstimationMeaning | main.go:86-107 | The estimate gives a figure exactly when the exchange succeeds and safeTxGas is an int64 in decimal, and the figure is that number. An exchange error is passed back unchanged, and a parse error names the safeTxGas string |
| SafeClient.NewTxRequest | main.go:132-147 | The proposal copies to, amount, safeTxGas, nonce, hash, from and signature into their own fields. Regardless of the arguments, operation is 0, gas token and refund receiver are ZERO_ADDR, base gas and gas price are 0, and data and origin are null |
| SafeClient.SubmissionResultMeaning | main.go:159-173 | Success happens exactly on status 200, and replies with status 200 give the same result whatever their body. Any other status fails: a body that cannot be read or decoded gives that error unchanged; a decoded body gives a Rejected error whose message is empty for an empty list, the entry itself for one entry, and otherwise the first entries joined, a newline, then the last entry. Provided no entry contains a newline, the message's lines are exactly the nonFieldErrors in order |
| SafeClient.RejectionExample | main.go:159-173 | Status 400 with ["Nonce too low", "Invalid signature"] gives the message "Nonce too low\nInvalid signature" |
| Transaction.NewSafeTx | main.go:194-207 | The hashed Safe transaction copies sender, safe, to, amount, safeTxGas and nonce. Its data is empty, operation is 0, gas price and base gas are 0, and gas token and refund receiver are the zero address |
| Transaction.SendTransaction | main.go:176-248 | The early-return flow, including the appended preimage and the in-place signature fix, returns the same error and makes the same calls as Run |
| Transaction.RunStopsAtFirstError | main.go:176-248 | Calls run in the fixed order fetch nonce, estimate, hash domain, hash message, load key, sign, submit, and none is skipped. Every call but the last succeeded. The returned error is exactly the last call's outcome, unchanged. A run that ends before submit has failed |
| Transaction.RunCallsUseArguments | main.go:178-244 | The nonce is fetched for the caller's Safe. The estimate request carries the caller's destination and amount. Whenever hashing is reached, both hashed structs are NewSafeTx of the caller's sender, Safe, destination and amount with the fetched nonce and the parsed safeTxGas. Whenever signing is reached, the signed digest is Keccak-256 of [1, 19] ++ domain hash ++ message hash of that transaction. The key loaded is the caller's privKey, and the digest is signed with the key parsed from it. The proposal is posted for the caller's Safe |
| Transaction.SubmittedProposalCarriesSignedDigest | main.go:178-244 | A submitted proposal went to the caller's Safe after fetching that Safe's nonce and estimating with the caller's destination and amount. It carries the fetched nonce and the parsed safeTxGas. The hashed transaction is exactly NewSafeTx of the caller's sender, Safe, destination and amount with those two figures, so its fixed fields hold. Its hash field is the encoding of the digest that was signed, and that digest is Keccak-256 of [1, 19] ++ domain hash ++ message hash. The digest was signed with the key parsed from the caller's privKey. Its signature field is the encoding of the normalised signer output. The proposal's fixed fields hold |
| Transaction.RunSucceedsIffAllStepsSucceed | main.go:176-248 | sendTransaction returns nil exactly when all seven calls ran, the POST succeeded, and the service answered 200 |
| Transaction.EndToEndExample | main.go:176-248 | With nonce 5 and an estimate of "21000" for amount 1000000, and with hashing, key parsing and signing succeeding on a raw recovery byte of 0 or 1, the proposal is submitted with nonce 5 and safeTxGas 21000. The hashed transaction holds the same figures, and the signature's last byte is 27 or 28 |

## Left out

- getSafeNonce (main.go:35-52): the GET, the body read and the JSON decode are the `Env.getSafe` function. Only the `nonce` field of the response is kept.
- The HTTP POSTs, body reads and JSON decoding in getGasEstimation and sendGnosisTx are `Env.estimate` and `Env.submit`. Reading and decoding the error body is folded into `HttpReply.errorBody`. The endpoint URLs are not modelled.
- getSafeNonce (main.go:36-51) and getGasEstimation (main.go:87-100) never check the HTTP status. An error reply whose body still decodes therefore gives nonce 0, or a safeTxGas of "" and then a syntax error. `Env.getSafe` and `Env.estimate` are unconstrained, so they may return exactly those values.
- `json.Marshal` of the two request records is not modelled. The records hold only strings, integers and nil pointers, so marshalling them cannot fail, and its error branches (main.go:82-85, 149-152) are never taken.
- The following go-ethereum code is not part of this model. It is represented by `Env` functions, and nothing is assumed about their results beyond their types (a 32-byte hash, a 65-byte signature):
  - `ToTypedData` and `HashStruct` (EIP-712 struct hashing, including `HexToAddress` and `NewDecimal256` on the fields);
  - `Keccak256Hash`;
  - `HexToECDSA`;
  - `crypto.Sign`;
  - `hexutil.Encode` / `Hash.Hex`.
- The `fmt.Println` diagnostics and `main`'s placeholder arguments are not modelled.
- The response fields the code never reads (main.go:23-33, 62-71) are not modelled.
- Integer widths: `Int64` bounds the nonce, amount and safeTxGas. The big-integer fields of the hashed transaction are unbounded integers, as they are in Go's `big.Int`.
- `strconv` walks the bytes of the string; the model walks its characters. Every byte of a non-ASCII character is a non-digit, and so is the character, so the result is the same either way.
