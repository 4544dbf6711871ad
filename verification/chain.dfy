/** Keys, program-derived addresses and errors of the Solana runtime, as the
    instruction handlers of this model see them. */
module Chain {

  datatype Option<+T> = None | Some(value: T)

  /** A 32-byte public key. A key written out in a program (a program id) or
      held by a wallet is named by its base58 text. A program-derived address
      is named by the program and the seeds it was derived from, so two
      derivations give the same address exactly when their programs and seeds
      agree, and no derived address is a wallet key. */
  datatype Pubkey =
    | Key(base58: string)
    | Derived(program: Pubkey, seeds: seq<Seed>)

  /** One seed of a derivation: a byte string (a label such as "metadata", or
      a symbol), the 32 bytes of a key, or an integer in little-endian bytes. */
  datatype Seed =
    | Bytes(text: string)
    | KeyBytes(key: Pubkey)
    | LeBytes(value: nat, width: nat)

  /** The all-zero key: `system_program::ID`, and also `Pubkey::default()`. */
  const SystemProgramId: Pubkey := Key("11111111111111111111111111111111")
  const TokenProgramId: Pubkey := Key("TokenkegQfeZyiNwAJbNbGKPFXCWuBvf9Ss623VQ5DA")
  const Token2022Id: Pubkey := Key("TokenzQdBNbLqP5VEhdkAS6EPFLC1PHnBqCXEpPxuEb")
  const AssociatedTokenProgramId: Pubkey := Key("ATokenGPvbdGVxr1b2hvZbsiqW5xWH25efTNsLJA8knL")

  /** The ids of the four programs of this model. They are declared in the
      programs' `lib.rs` files, which are not part of this model, so every
      handler receives them as a value. */
  datatype ProgramIds = ProgramIds(
    editions: Pubkey,
    editionsControls: Pubkey,
    metadata: Pubkey,
    inscriptions: Pubkey)

  /** The errors an instruction of this model can end with. Every one of them
      aborts the whole transaction. */
  datatype Error =
    // raised by the Anchor framework while it loads and checks accounts
    | AccountNotSigner
    | AccountNotInitialized
    | AccountDiscriminatorMismatch
    | AccountOwnedByWrongProgram
    | InvalidProgramId
    | ConstraintSeeds
    | ConstraintRaw
    // raised by the system program
    | AccountAlreadyInUse
    | InsufficientFunds
    // a panic (out-of-range index) or a library error
    | IndexOutOfBounds
    | InvalidAccountData
    | InvalidArgument
    // a cross-program call asked to borrow an account's data that is already borrowed
    | AccountBorrowFailed
    // EditionsError
    | MintNotComplete
    | InvalidCreator
    | MetadataNotFound
    | UpdateAuthorityAlreadyChanged
    // the metadata program's ErrorCode
    | InvalidSignedProgram
    | DerivedKeyInvalid
    // an error raised inside a program this model does not contain
    | Foreign(code: nat)

  datatype Result<+T> = Success(value: T) | Failure(error: Error)

  datatype Outcome = Pass | Fail(error: Error)

  /** The address `program` derives from `seeds` (Anchor's `seeds = [...],
      bump` with the canonical bump). */
  function Derive(program: Pubkey, seeds: seq<Seed>): (r: Pubkey)
    ensures r.Derived? && r != SystemProgramId
  {
    Derived(program, seeds)
  }

  /** Whether `claimed` is the address `program` derives from `seeds`: the
      check a program makes on an account it expects at a derived address. */
  predicate VerifyDerivation(claimed: Pubkey, program: Pubkey, seeds: seq<Seed>)
  {
    claimed == Derive(program, seeds)
  }

  /** `assert_pda_derivation(program, account, seeds)`: fails with
      DerivedKeyInvalid unless `account` is the address `program` derives from
      `seeds`. */
  function AssertPdaDerivation(program: Pubkey, account: Pubkey, seeds: seq<Seed>): (r: Outcome)
    ensures r.Pass? <==> account == Derive(program, seeds)
    ensures r.Fail? ==> r.error == DerivedKeyInvalid
  {
    if VerifyDerivation(account, program, seeds) then Pass else Fail(DerivedKeyInvalid)
  }

  /** A derived handle verifies against the program and seeds it came from,
      and against no other. */
  lemma DerivationSound(program: Pubkey, seeds: seq<Seed>, q: Pubkey, t: seq<Seed>)
    ensures VerifyDerivation(Derive(program, seeds), q, t) <==> q == program && t == seeds
  {
  }

  /** The check Anchor's `Program<'info, P>` type makes. */
  function RequireProgram(account: Pubkey, id: Pubkey): (r: Outcome)
    ensures r.Pass? <==> account == id
    ensures r.Fail? ==> r.error == InvalidProgramId
  {
    if account == id then Pass else Fail(InvalidProgramId)
  }
}
