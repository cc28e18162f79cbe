/** Turning a swap result into one unsigned transaction bound to a recent blockhash
    (`SwapResult::into_unsigned_transaction`). */
module Assembly {
  import opened Wrappers
  import opened Numeric
  import opened Solana
  import opened Types
  import opened Errors

  /** The same message with its recent-blockhash field replaced. */
  function WithBlockhash(m: VersionedMessage, blockhash: Hash): VersionedMessage {
    match m
    case Legacy(l) => Legacy(l.(recentBlockhash := blockhash))
    case V0(v) => V0(v.(recentBlockhash := blockhash))
  }

  /** A fresh signature list: one zero placeholder per required signer of the header. */
  function Placeholders(header: MessageHeader): seq<Signature> {
    seq(header.numRequiredSignatures, _ => DefaultSignature())
  }

  function IntoUnsignedTransaction(result: SwapResult, payer: Pubkey, blockhash: Hash, compile: Compiler)
    : (r: Result<VersionedTransaction, SwapError>)
    // Prebuilt path: never fails; only the blockhash and the signatures change.
    ensures result.Transaction? ==> r.Success?
    ensures result.Transaction? ==>
              var before := result.transaction.message;
              var after := r.value.message;
              && after.RecentBlockhash() == blockhash
              && after.V0? == before.V0?
              && after.Header() == before.Header()
              && after.AccountKeys() == before.AccountKeys()
              && after.Instructions() == before.Instructions()
              && after.AddressTableLookups() == before.AddressTableLookups()
    // Instruction path: the result is the compiled V0 message, or the compiler's error.
    ensures result.Instructions? ==>
              var compiled := compile(payer, result.instructions, result.addressLookupTables, blockhash);
              && (compiled.Failure? ==> r == Failure(Solana(compiled.error)))
              && (compiled.Success? ==> r.Success? && r.value.message == V0(compiled.value))
    // Either way the signature slots are zero placeholders sized by the header.
    ensures r.Success? ==> HasPlaceholderSignatures(r.value)
  {
    match result
    case Transaction(transaction, _) =>
      var message := WithBlockhash(transaction.message, blockhash);
      Success(VersionedTransaction(Placeholders(message.Header()), message))
    case Instructions(instructions, addressLookupTables, _) =>
      var message :- compile(payer, instructions, addressLookupTables, blockhash).MapError(e => Solana(e));
      Success(VersionedTransaction(Placeholders(message.header), V0(message)))
  }

  /** Re-assembling an assembled prebuilt transaction with the same blockhash changes
      nothing. */
  lemma PrebuiltIdempotent(tx: VersionedTransaction, height: U64, height': U64, payer: Pubkey,
                           blockhash: Hash, compile: Compiler)
    ensures var once := IntoUnsignedTransaction(Transaction(tx, height), payer, blockhash, compile);
            IntoUnsignedTransaction(Transaction(once.value, height'), payer, blockhash, compile) == once
  {
  }

  /** The prebuilt path depends on nothing but the message: neither the incoming
      signatures, nor the last valid block height, nor the payer, nor the compiler. */
  lemma PrebuiltDependsOnlyOnMessage(a: VersionedTransaction, b: VersionedTransaction,
                                     ha: U64, hb: U64, pa: Pubkey, pb: Pubkey,
                                     blockhash: Hash, ca: Compiler, cb: Compiler)
    requires a.message == b.message
    ensures IntoUnsignedTransaction(Transaction(a, ha), pa, blockhash, ca)
         == IntoUnsignedTransaction(Transaction(b, hb), pb, blockhash, cb)
  {
  }

  /** The compute-unit hint of the instruction path has no influence on the result. */
  lemma InstructionsIgnoreComputeUnits(instructions: seq<Instruction>,
                                       tables: seq<AddressLookupTableAccount>,
                                       ua: Option<U32>, ub: Option<U32>,
                                       payer: Pubkey, blockhash: Hash, compile: Compiler)
    ensures IntoUnsignedTransaction(Instructions(instructions, tables, ua), payer, blockhash, compile)
         == IntoUnsignedTransaction(Instructions(instructions, tables, ub), payer, blockhash, compile)
  {
  }
}
