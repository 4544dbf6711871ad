# Libreplex editions, controls, metadata and inscriptions: a Dafny model

This project models four Solana/Anchor instruction handlers of the Libreplex
program library. Each is a guarded state transition over an account store:

- `mint_with_controls` of the editions-controls program. A buyer pays the
  price of a sale phase to the deployment's treasury. The controls record
  then signs through its program-derived address (PDA) and asks the editions
  program to mint.
- `create_metadata` of the metadata program. It decides whether the signer
  may create metadata for a mint (directly, or through the whitelisted
  `migrator_lite` program). It then fills in a fresh metadata record.
- `update_mint_authority` of the editions program. Once a deployment is sold
  out, its creator takes over the update authority of the mint's token
  metadata from the deployment's own address.
- `make_inscription_immutable` of the inscriptions program. The inscription's
  authority is handed to the system program id, and the global summary
  counts one more immutable inscription.

## How the model is built

- `chain.dfy` (`Chain`) holds keys, seeds, program-derived addresses and the
  errors. A key is either a key written out in base58 or `Derived(program,
  seeds)`. Derivation is therefore injective, and a derived address is never
  a wallet key or the all-zero key.
- `ledger.dfy` (`Ledger`) holds the records the handlers read and write. It
  also holds the store: a map from addresses to accounts, where an account is
  a lamport balance plus the record it holds. Further pieces:
  - the system `transfer`;
  - Anchor's `init` and `init_if_needed`;
  - a `Store` class whose `accounts` field the handlers rewrite.
- One module per core file. Each has a pure function `…Tx` giving the
  outcome of the whole transaction: the framework's account checks, then
  the handler. Where the source updates records in place, a method on the
  `Store` runs the same steps one by one. It puts back the snapshot taken at
  the start when a step fails, and is proved equal to the function.
- Anchor checks accounts in three passes, and the model does the same:
  1. It loads every ordinary account in declaration order: record kind,
     signer, program id.
  2. It creates the `init`/`init_if_needed` accounts.
  3. It checks the remaining `seeds`/`constraint` clauses in declaration
     order.

What the code does, as the model has it:

- The `mint_with_controls` handler itself increments no counter and checks
  no cap. It calls `check_phase_constraints` as a statement, without `?`
  (`programs/libreplex_editions_controls/src/instructions/mint_with_controls.rs:138-141`).
  `PhaseConstraintsIgnored` proves that, if that function returns normally,
  the outcome does not depend on what it returns.
- `update_mint_authority` is meant to hand the update authority to the
  payer, who must be the deployment's creator (`programs/libreplex_editions/src/instructions/update_authority.rs:41-77`). As written it
  cannot get there. The `Ref` bound to the mint's data at line 43 is still
  alive at line 79. The token-2022 instruction lists the mint as writable,
  and `invoke_signed` borrows the data of every writable account it is given
  before making the call. So once every guard passes, the handler ends with
  AccountBorrowFailed (see "## Findings"). The rest of the model uses the
  intended hand-off, with that borrow released before the call.
- After `make_inscription_immutable`, the inscription's authority is the
  system program id. A second call on it that names any other authority is
  stopped by the framework's `inscription.authority == authority.key()`
  constraint, with `ConstraintRaw`.
- With no migrator program, `create_metadata` accepts any signing authority.
  The code does not check that the mint signs
  (`programs/libreplex_metadata/src/instructions/create_metadata.rs:101-104`).
  `NoMigratorAcceptsAnySigner` states this.
- The accounts struct of `mint_with_controls` decodes its instruction
  argument as `phase_index: usize`, which is 8 bytes (line 26). The handler's
  `MintInput` carries `phase_index: u32`, which is 4 bytes (line 21).
  Instruction data that holds only a serialised `MintInput` looks too short
  for the accounts struct's decode. This was read off the code; it was not
  executed. The model takes the decoded index as a separate input,
  `seedPhaseIndex`.

## Model

| member | source | states |
|---|---|---|
| Chain.AssertPdaDerivation | programs/libreplex_metadata/src/instructions/create_metadata.rs:92-98 | passes exactly when the account is the address the program derives from the seeds; otherwise DerivedKeyInvalid |
| Chain.DerivationSound | programs/libreplex_editions_controls/src/instructions/mint_with_controls.rs:159-164 | a derived address verifies against the program and seeds it came from, and against no other pair |
| Ledger.TransferLamports | programs/libreplex_editions_controls/src/instructions/mint_with_controls.rs:146-155 | fails with InsufficientFunds exactly when the source holds less than the amount; otherwise the source loses and the destination gains exactly the amount, and no other balance or record changes |
| Ledger.InitIfNeeded | programs/libreplex_editions_controls/src/instructions/mint_with_controls.rs:61-75 | creates the zeroed record when nothing is at the address, keeps a record of the same kind, rejects a record of another kind |
| Ledger.Init | programs/libreplex_metadata/src/instructions/create_metadata.rs:26-27 | creates the zeroed record only where no record exists; otherwise AccountAlreadyInUse |
| Ledger.Store.Transfer | programs/libreplex_editions_controls/src/instructions/mint_with_controls.rs:146-155 | the transfer run against the store: the new store is the one TransferLamports gives, and a failed transfer leaves the store as it was |
| EditionsControlsProgram.DelegatedMintCall | programs/libreplex_editions_controls/src/instructions/mint_with_controls.rs:159-184 | the delegated mint gets the controls record as signer, signed by the controls program with seeds ["editions_controls", deployment]; every other MintCtx account (deployment, hashlist, hashlist marker, payer, minter, mint, group mint, token account and the three programs) is the caller's account of the same name |
| EditionsControlsProgram.CheckInterfaceMint | programs/libreplex_editions_controls/src/instructions/mint_with_controls.rs:82-84 | the group mint must be a mint of the token or the token-2022 program |
| EditionsControlsProgram.LoadAccounts | programs/libreplex_editions_controls/src/instructions/mint_with_controls.rs:28-113 | loading passes exactly when deployment and controls records are present, payer, signer and mint have signed, the group mint is a token or token-2022 mint, and the associated-token, system and editions program ids are correct |
| EditionsControlsProgram.CheckConstraints | programs/libreplex_editions_controls/src/instructions/mint_with_controls.rs:33-101 | passes exactly when all hold: the controls record is at its derived address; the cosigner policy (system program id, or signer is the creator); the group-mint binding; the treasury binding; the token program is token-2022 |
| EditionsControlsProgram.PrepareAccounts | programs/libreplex_editions_controls/src/instructions/mint_with_controls.rs:28-113 | preparation succeeds exactly when the accounts load, both counter records are at their derived addresses ["minter_stats", minter] and ["minter_stats_phase", minter, le_bytes(seed index)] and hold nothing or a counter record, and every constraint holds; on success both hold counter records and deployment and controls are untouched |
| EditionsControlsProgram.PayForPhase | programs/libreplex_editions_controls/src/instructions/mint_with_controls.rs:137-155 | a phase index past the end fails with IndexOutOfBounds before any transfer; otherwise the outcome is exactly the transfer of that phase's price from payer to treasury |
| EditionsControlsProgram.MintWithControlsTx | programs/libreplex_editions_controls/src/instructions/mint_with_controls.rs:25-185 | a successful mint implies: the cosigner policy held, treasury and group mint are bound, the controls and both stats records are at their derived addresses, and the phase index is in range (the converse is PaidMintGoesThrough) |
| EditionsControlsProgram.PhaseIndexOutOfRange | programs/libreplex_editions_controls/src/instructions/mint_with_controls.rs:137 | an out-of-range phase index fails with IndexOutOfBounds whatever the balances or the delegated mint |
| EditionsControlsProgram.PaidMintGoesThrough | programs/libreplex_editions_controls/src/instructions/mint_with_controls.rs:137-185 | a call whose accounts check out, whose phase exists and whose payer covers the price pays and then ends exactly as the delegated mint on the paid store ends |
| EditionsControlsProgram.PaymentBeforeMint | programs/libreplex_editions_controls/src/instructions/mint_with_controls.rs:146-184 | on success the delegated mint ran on a store where payer lost and treasury gained exactly the phase price, with no other balance or record changed; the result is that call's result |
| EditionsControlsProgram.PrepareKeepsBalances | programs/libreplex_editions_controls/src/instructions/mint_with_controls.rs:61-75 | creating the counter records moves no lamports |
| EditionsControlsProgram.UnpaidPhaseFails | programs/libreplex_editions_controls/src/instructions/mint_with_controls.rs:146-155 | a payer short of the phase price ends the transaction with InsufficientFunds |
| EditionsControlsProgram.DelegatedSignerIsControls | programs/libreplex_editions_controls/src/instructions/mint_with_controls.rs:159-184 | the signer of the delegated call verifies against the controls program and the seeds ["editions_controls", deployment] it signs with |
| EditionsControlsProgram.MintFailureAborts | programs/libreplex_editions_controls/src/instructions/mint_with_controls.rs:166-185 | a failing delegated mint fails the whole transaction with its error |
| EditionsControlsProgram.PhaseConstraintsIgnored | programs/libreplex_editions_controls/src/instructions/mint_with_controls.rs:138-141 | the transaction's outcome is the same whatever check_phase_constraints decides |
| EditionsControlsProgram.CountersUntouched | programs/libreplex_editions_controls/src/instructions/mint_with_controls.rs:117-155 | before the delegated call both counter records hold their old value, or zero if just created; no other record changed |
| EditionsControlsProgram.MintWithControls | programs/libreplex_editions_controls/src/instructions/mint_with_controls.rs:117-185 | the step-by-step handler ends as MintWithControlsTx says; on any failure, the delegated mint's included, the store (balances included) is exactly as before |
| MetadataProgram.AssertIsValidSigner | programs/libreplex_metadata/src/instructions/create_metadata.rs:83-107 | no migrator: always passes; a migrator other than migrator_lite: InvalidSignedProgram; through migrator_lite: passes exactly when the signer is its ["metadata_signer", mint] address |
| MetadataProgram.LoadAccounts | programs/libreplex_metadata/src/instructions/create_metadata.rs:17-48 | loading passes exactly when signer, payer and authority have signed, the mint is a token-program mint, and the system program id is correct |
| MetadataProgram.CreateMetadataTx | programs/libreplex_metadata/src/instructions/create_metadata.rs:17-67 | succeeds exactly when the accounts load, the record address is ["metadata", mint] and holds nothing yet, and the signer is valid |
| MetadataProgram.CreatedRecord | programs/libreplex_metadata/src/instructions/create_metadata.rs:59-67 | on success the one new record is mutable, for the mint, created by the authority, with symbol, name, description, asset and update authority copied; nothing else changes |
| MetadataProgram.CreateOnce | programs/libreplex_metadata/src/instructions/create_metadata.rs:26-27 | metadata for a mint can be created only once |
| MetadataProgram.NoMigratorAcceptsAnySigner | programs/libreplex_metadata/src/instructions/create_metadata.rs:101-104 | with no migrator, loaded accounts and a fresh address, creation always succeeds |
| MetadataProgram.MigratorSignerAccepted | programs/libreplex_metadata/src/instructions/create_metadata.rs:85-98 | through migrator_lite, its derived signer ["metadata_signer", mint] is accepted: loaded accounts and a fresh address give success |
| MetadataProgram.CreateMetadata | programs/libreplex_metadata/src/instructions/create_metadata.rs:50-81 | the step-by-step handler ends as CreateMetadataTx says; a rejected signer leaves no record and no other change |
| EditionsProgram.NonZero | programs/libreplex_editions/src/instructions/update_authority.rs:51 | OptionalNonZeroPubkey accepts exactly the non-zero keys, keeping the key, and refuses the all-zero key with InvalidArgument |
| EditionsProgram.UpdateMintAuthority | programs/libreplex_editions/src/instructions/update_authority.rs:34-79 | guards in order: MintNotComplete, then InvalidCreator, then MetadataNotFound, then UpdateAuthorityAlreadyChanged; success iff all hold; the call hands the authority from the deployment to the payer, signed with ["editions_deployment", symbol] |
| EditionsProgram.CheckAccounts | programs/libreplex_editions/src/instructions/update_authority.rs:9-32 | the accounts check out exactly when the deployment record is at the address derived from its own symbol, the payer signed, and the system program and token-2022 ids are correct |
| EditionsProgram.ApplyUpdateAuthority | programs/libreplex_editions/src/instructions/update_authority.rs:72-79 | token-2022's update_authority on success: the mint's metadata update authority becomes the new authority; no other record or balance changes |
| EditionsProgram.UpdateMintAuthorityTx | programs/libreplex_editions/src/instructions/update_authority.rs:34-81 | the hand-off as intended (the mint's data borrow released before the call): a failing account check ends with its error; once the accounts check out, the hand-off succeeds exactly when the guard chain passes and token-2022 accepts, and otherwise ends with the failing guard's or token-2022's error |
| EditionsProgram.UpdateMintAuthorityTxAsWritten | programs/libreplex_editions/src/instructions/update_authority.rs:34-81 | the handler as written never succeeds: a failing account check or guard ends with its error, and a call that passes every guard ends with AccountBorrowFailed, because the mint's data is still borrowed at the token-2022 call |
| EditionsProgram.BorrowBlocksHandOff | programs/libreplex_editions/src/instructions/update_authority.rs:43-79 | wherever the intended hand-off succeeds, the handler as written fails with AccountBorrowFailed; in every other case the two agree |
| EditionsProgram.HandOffWitness | programs/libreplex_editions/src/instructions/update_authority.rs:40-79 | a sold-out deployment whose creator calls with every account right: the intended hand-off succeeds, the handler as written fails with AccountBorrowFailed |
| EditionsProgram.HandOffSignedByDeployment | programs/libreplex_editions/src/instructions/update_authority.rs:57-79 | the hand-off's signer seeds derive the address that holds the update authority |
| EditionsProgram.HandOffEffect | programs/libreplex_editions/src/instructions/update_authority.rs:34-81 | on success only the mint's update authority changes, to the payer; deployment record, other records and balances are unchanged |
| EditionsProgram.SecondHandOffFails | programs/libreplex_editions/src/instructions/update_authority.rs:51-55 | after a successful hand-off to a payer other than the deployment, a repeat fails with UpdateAuthorityAlreadyChanged |
| InscriptionsProgram.LoadAccounts | programs/libreplex_inscriptions/src/instructions/make_inscription_immutable.rs:16-34 | loading passes exactly when payer and authority have signed, an inscription record is present, and the system program id is correct |
| InscriptionsProgram.MakeInscriptionImmutableTx | programs/libreplex_inscriptions/src/instructions/make_inscription_immutable.rs:16-49 | succeeds exactly when the accounts load, the summary address is ["inscription_summary"] and holds nothing or a summary, and the signing authority is the inscription's authority |
| InscriptionsProgram.MakeImmutableEffect | programs/libreplex_inscriptions/src/instructions/make_inscription_immutable.rs:36-49 | on success the inscription's authority becomes the system program id with other fields kept; the summary count grows by one and records the inscription, payer and clock; nothing else changes |
| InscriptionsProgram.FirstSummaryCountsOne | programs/libreplex_inscriptions/src/instructions/make_inscription_immutable.rs:24-44 | the summary starts zeroed, so the first success leaves a count of one |
| InscriptionsProgram.ImmutableIsTerminal | programs/libreplex_inscriptions/src/instructions/make_inscription_immutable.rs:28-42 | once the authority is the system program id, any call naming another authority fails, with ConstraintRaw when the other accounts are right |
| InscriptionsProgram.RunCountsSuccesses | programs/libreplex_inscriptions/src/instructions/make_inscription_immutable.rs:44 | over any sequence of transactions the immutable count grows by exactly the number of successful ones |
| InscriptionsProgram.RunKeepsImmutable | programs/libreplex_inscriptions/src/instructions/make_inscription_immutable.rs:29-42 | over any sequence of transactions none of which names the system program id as authority, an immutable inscription keeps its whole record |
| InscriptionsProgram.MakeInscriptionImmutable | programs/libreplex_inscriptions/src/instructions/make_inscription_immutable.rs:36-65 | the step-by-step handler ends as MakeInscriptionImmutableTx says, and leaves the store untouched on failure |

## Findings

| source | as written | input that shows it | evidently intended | confidence | as-written member | corrected member |
|---|---|---|---|---|---|---|
| programs/libreplex_editions/src/instructions/update_authority.rs:43-79 | the `Ref` from `mint.data.borrow()` is still alive when `invoke_signed` borrows the writable mint's data mutably | a sold-out deployment at its derived address, the creator as payer, a token-2022 mint whose metadata update authority is the deployment, and every account right (HandOffWitness) | the borrow is released before the call, and the update authority passes to the creator | not executed; read from the code | EditionsProgram.UpdateMintAuthorityTxAsWritten, EditionsProgram.BorrowBlocksHandOff | EditionsProgram.UpdateMintAuthorityTx, EditionsProgram.HandOffEffect, EditionsProgram.SecondHandOffFails |

## Left out

- `check_phase_constraints` is not part of this model. Its signature and body
  are not available. It is passed in as a function whose value the handler
  does not use. The two counter records may be passed to it mutably. The
  controls record can only be passed immutably, because `current_phase`
  still borrows it at the transfer. Any change it makes to the counter
  records is not modelled, and no wallet or phase cap is claimed.
- PhaseConstraintsIgnored: assumes that `check_phase_constraints` returns
  normally. A panic inside it would abort the transaction, and that case is
  not modelled.
- The editions program's `mint` is not part of this model. It is a
  function-typed parameter that may rewrite the store or fail. Issuance
  counters, the hashlist and its own authority check belong to it.
- Token-2022's `update_authority` is modelled by its effect on success: the
  metadata's update authority becomes the new one. Whether token-2022 accepts
  the call is a parameter.
- `assert_pda_derivation` is not part of this model. It is modelled as the
  derivation check. The name of the error it fails with, DerivedKeyInvalid,
  is assumed.
- PDA derivation is symbolic. Hashing, bump search and the 32-byte seed
  limit are not modelled. Seeds that would encode to the same bytes under
  different seed kinds are treated as distinct.
- Token-2022 extension parsing (`StateWithExtensions::unpack`) is reduced to
  two cases:
  - a mint record with or without a metadata extension;
  - any other data, which fails with InvalidAccountData.
- The framework's checks are modelled only in part:
  - Anchor's owner checks are modelled as the kind of record an account holds.
  - CheckKind returns AccountNotInitialized for an empty account and
    AccountDiscriminatorMismatch for a record of another kind. Anchor reports
    an uninitialised account that holds lamports, or an account owned by
    another program, as AccountOwnedByWrongProgram. Only the error code
    differs.
  - `mut` (writable) and executable checks are not modelled.
  - The `#[instruction(phase_index: usize)]` argument is taken as a separate
    input, `seedPhaseIndex`. How the framework decodes it from the
    instruction data is not modelled; the length mismatch noted above is not
    modelled.
- TransferLamports: the system program also refuses a transfer whose `from`
  account carries data. The model checks only the balance.
- Rent and account space are not modelled. Created records keep the
  account's balance, and the payer is not charged rent. So the exact price
  movement in PaymentBeforeMint does not include the rent of new counter
  records.
- Only the record fields these handlers read or write are kept. Phase time
  windows and caps are left out, and the layout of `MinterStats` is reduced
  to one counter.
- Runtime details:
  - Events (`emit!`) and `msg!` logging are left out.
  - The clock is a parameter, and a failing `Clock::get()` is not modelled.
  - `inscription_count_immutables` is a `nat`, so u64 overflow is not
    modelled.
- Concurrency and record locking are the runtime's concern. Each
  transaction is one sequential, all-or-nothing step.
- `write_to_legacy_inscription_as_holder` forwards to the inscriptions
  program's `write_to_inscription`, whose logic is not part of this model.
