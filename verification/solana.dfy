/** The parts of the Solana SDK the core touches: keys, hashes, signatures, instructions,
    address lookup tables, legacy and version-0 messages and versioned transactions.
    Message compilation is foreign code and appears only as the `Compiler` type. */
module Solana {
  import opened Wrappers
  import opened Numeric

  type Bytes = seq<U8>

  datatype Pubkey = Pubkey(bytes: Bytes)

  datatype Hash = Hash(bytes: Bytes)

  datatype Signature = Signature(bytes: Bytes)

  const SIGNATURE_BYTES: nat := 64

  /** `Signature::default()`: 64 zero bytes, the placeholder of an unsigned slot. */
  function DefaultSignature(): Signature {
    Signature(seq(SIGNATURE_BYTES, _ => 0))
  }

  datatype AccountMeta = AccountMeta(pubkey: Pubkey, isSigner: bool, isWritable: bool)

  datatype Instruction = Instruction(programId: Pubkey, accounts: seq<AccountMeta>, data: Bytes)

  datatype AddressLookupTableAccount = AddressLookupTableAccount(key: Pubkey, addresses: seq<Pubkey>)

  datatype MessageHeader = MessageHeader(
    numRequiredSignatures: U8,
    numReadonlySignedAccounts: U8,
    numReadonlyUnsignedAccounts: U8)

  datatype CompiledInstruction = CompiledInstruction(programIdIndex: U8, accounts: seq<U8>, data: Bytes)

  datatype MessageAddressTableLookup = MessageAddressTableLookup(
    accountKey: Pubkey,
    writableIndexes: seq<U8>,
    readonlyIndexes: seq<U8>)

  datatype LegacyMessage = LegacyMessage(
    header: MessageHeader,
    accountKeys: seq<Pubkey>,
    recentBlockhash: Hash,
    instructions: seq<CompiledInstruction>)

  datatype V0Message = V0Message(
    header: MessageHeader,
    accountKeys: seq<Pubkey>,
    recentBlockhash: Hash,
    instructions: seq<CompiledInstruction>,
    addressTableLookups: seq<MessageAddressTableLookup>)

  datatype VersionedMessage = Legacy(legacy: LegacyMessage) | V0(v0: V0Message) {

    function Header(): MessageHeader {
      match this
      case Legacy(m) => m.header
      case V0(m) => m.header
    }

    function AccountKeys(): seq<Pubkey> {
      match this
      case Legacy(m) => m.accountKeys
      case V0(m) => m.accountKeys
    }

    function RecentBlockhash(): Hash {
      match this
      case Legacy(m) => m.recentBlockhash
      case V0(m) => m.recentBlockhash
    }

    function Instructions(): seq<CompiledInstruction> {
      match this
      case Legacy(m) => m.instructions
      case V0(m) => m.instructions
    }

    /** A legacy message has no lookup-table section. */
    function AddressTableLookups(): seq<MessageAddressTableLookup> {
      match this
      case Legacy(_) => []
      case V0(m) => m.addressTableLookups
    }
  }

  datatype VersionedTransaction = VersionedTransaction(signatures: seq<Signature>, message: VersionedMessage)

  /** A transaction ready to be signed: one all-zero placeholder per required signer. */
  predicate HasPlaceholderSignatures(tx: VersionedTransaction) {
    && |tx.signatures| == tx.message.Header().numRequiredSignatures
    && forall i :: 0 <= i < |tx.signatures| ==> tx.signatures[i] == DefaultSignature()
  }

  /** `v0::Message::try_compile(payer, instructions, lookup_tables, blockhash)`, a foreign
      partial function; its error is carried as the error's display text. */
  type Compiler = (Pubkey, seq<Instruction>, seq<AddressLookupTableAccount>, Hash) -> Result<V0Message, string>
}
