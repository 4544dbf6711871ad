/** `mint_with_controls` of the editions-controls program: a buyer pays the
    current phase's price to the treasury, and the controls record, signing
    through its derived address, asks the editions program to mint. Every
    step belongs to one transaction: if the delegated mint fails, the payment
    and the counter records created along the way are undone as well. */
module EditionsControlsProgram {
  import opened Chain
  import opened Ledger

  type U32 = n: nat | n < 0x1_0000_0000
  type U64 = n: nat | n < 0x1_0000_0000_0000_0000

  /** `MintInput`: the index of the phase to buy in, as the handler reads it. */
  datatype MintInput = MintInput(phaseIndex: U32)

  /** The accounts of `MintWithControlsCtx`, in declaration order. */
  datatype MintWithControlsAccounts = MintWithControlsAccounts(
    editionsDeployment: Pubkey,
    editionsControls: Pubkey,
    hashlist: Pubkey,
    hashlistMarker: Pubkey,
    payer: Pubkey,
    signer: Pubkey,
    minter: Pubkey,
    minterStats: Pubkey,
    minterStatsPhase: Pubkey,
    mint: Pubkey,
    groupMint: Pubkey,
    tokenAccount: Pubkey,
    treasury: Pubkey,
    tokenProgram: Pubkey,
    associatedTokenProgram: Pubkey,
    systemProgram: Pubkey,
    libreplexEditionsProgram: Pubkey)

  /** The seeds of a deployment's controls record: ["editions_controls", deployment]. */
  function ControlsSeeds(deployment: Pubkey): seq<Seed>
  {
    [Bytes("editions_controls"), KeyBytes(deployment)]
  }

  /** A minter's overall counter record: seeds ["minter_stats", minter]. */
  function MinterStatsAddress(ids: ProgramIds, minter: Pubkey): Pubkey
  {
    Derive(ids.editionsControls, [Bytes("minter_stats"), KeyBytes(minter)])
  }

  /** A minter's per-phase counter record: seeds ["minter_stats_phase", minter,
      phase index as eight little-endian bytes]. The index here is the
      instruction argument the framework decodes as a `usize`, which the model
      keeps apart from `MintInput.phaseIndex`. */
  function MinterStatsPhaseAddress(ids: ProgramIds, minter: Pubkey, seedPhaseIndex: U64): Pubkey
  {
    Derive(ids.editionsControls, [Bytes("minter_stats_phase"), KeyBytes(minter), LeBytes(seedPhaseIndex, 8)])
  }

  /** The editions program's `mint` instruction as this handler invokes it:
      the `MintCtx` accounts, and the seeds it signs with for `signer`. */
  datatype EditionsMintCall = EditionsMintCall(
    program: Pubkey,
    editionsDeployment: Pubkey,
    hashlist: Pubkey,
    hashlistMarker: Pubkey,
    payer: Pubkey,
    signer: Pubkey,
    minter: Pubkey,
    mint: Pubkey,
    groupMint: Pubkey,
    tokenAccount: Pubkey,
    tokenProgram: Pubkey,
    associatedTokenProgram: Pubkey,
    systemProgram: Pubkey,
    signerProgram: Pubkey,
    signerSeeds: seq<Seed>)

  /** The editions program's `mint`, which this model does not contain: any
      transformation of the store that may fail. */
  type EditionsMint = (Accounts, EditionsMintCall) -> Result<Accounts>

  /** `check_phase_constraints`, which this model does not contain: a verdict
      on the phase, the two counter records and the controls record. */
  type PhaseConstraints = (Phase, MinterStats, MinterStats, EditionsControls) -> Outcome

  /** The delegated call: the same accounts, with the controls record as the
      signer, signed with the controls record's own seeds. */
  function DelegatedMintCall(ids: ProgramIds, ix: MintWithControlsAccounts): (call: EditionsMintCall)
    ensures call.signer == ix.editionsControls && call.program == ix.libreplexEditionsProgram
    ensures call.signerProgram == ids.editionsControls && call.signerSeeds == ControlsSeeds(ix.editionsDeployment)
    // every other account of `MintCtx` is the caller's account of the same name
    ensures call.editionsDeployment == ix.editionsDeployment
    ensures call.hashlist == ix.hashlist && call.hashlistMarker == ix.hashlistMarker
    ensures call.payer == ix.payer && call.minter == ix.minter && call.mint == ix.mint
    ensures call.groupMint == ix.groupMint && call.tokenAccount == ix.tokenAccount
    ensures call.tokenProgram == ix.tokenProgram && call.associatedTokenProgram == ix.associatedTokenProgram
    ensures call.systemProgram == ix.systemProgram
  {
    EditionsMintCall(
      ix.libreplexEditionsProgram, ix.editionsDeployment, ix.hashlist, ix.hashlistMarker, ix.payer,
      ix.editionsControls, ix.minter, ix.mint, ix.groupMint, ix.tokenAccount, ix.tokenProgram,
      ix.associatedTokenProgram, ix.systemProgram,
      ids.editionsControls, ControlsSeeds(ix.editionsDeployment))
  }

  /** `InterfaceAccount<Mint>`: a mint of the token or the token-2022 program. */
  function CheckInterfaceMint(d: Data): (r: Outcome)
    ensures r.Pass? <==> d.MintData? && d.owner in {TokenProgramId, Token2022Id}
  {
    if d.Empty? then Fail(AccountNotInitialized)
    else if !d.MintData? || d.owner !in {TokenProgramId, Token2022Id} then Fail(AccountOwnedByWrongProgram)
    else Pass
  }

  /** The checks the framework makes while it loads the accounts, in
      declaration order: record kinds, signatures, the group mint, program ids. */
  function LoadAccounts(ids: ProgramIds, s: Accounts, ix: MintWithControlsAccounts, signers: set<Pubkey>)
    : (r: Outcome)
    ensures r.Pass? <==>
      && DataAt(s, ix.editionsDeployment).DeploymentData? && DataAt(s, ix.editionsControls).ControlsData?
      && ix.payer in signers && ix.signer in signers && ix.mint in signers
      && CheckInterfaceMint(DataAt(s, ix.groupMint)).Pass?
      && ix.associatedTokenProgram == AssociatedTokenProgramId
      && ix.systemProgram == SystemProgramId
      && ix.libreplexEditionsProgram == ids.editions
  {
    var deployment := DataAt(s, ix.editionsDeployment);
    var controls := DataAt(s, ix.editionsControls);
    if !deployment.DeploymentData? then CheckKind(deployment, false)
    else if !controls.ControlsData? then CheckKind(controls, false)
    else if ix.payer !in signers || ix.signer !in signers || ix.mint !in signers then Fail(AccountNotSigner)
    else if CheckInterfaceMint(DataAt(s, ix.groupMint)).Fail? then CheckInterfaceMint(DataAt(s, ix.groupMint))
    else if ix.associatedTokenProgram != AssociatedTokenProgramId then Fail(InvalidProgramId)
    else if ix.systemProgram != SystemProgramId then Fail(InvalidProgramId)
    else RequireProgram(ix.libreplexEditionsProgram, ids.editions)
  }

  /** The constraints checked after the counter records exist: the controls
      record's address, the cosigner policy, the group mint, the treasury and
      the token program. */
  function CheckConstraints(ids: ProgramIds, s: Accounts, ix: MintWithControlsAccounts): (r: Outcome)
    requires DataAt(s, ix.editionsDeployment).DeploymentData? && DataAt(s, ix.editionsControls).ControlsData?
    ensures r.Pass? <==>
      var deployment := DataAt(s, ix.editionsDeployment).deployment;
      var controls := DataAt(s, ix.editionsControls).controls;
      && ix.editionsControls == Derive(ids.editionsControls, ControlsSeeds(ix.editionsDeployment))
      && (deployment.cosignerProgramId == SystemProgramId || ix.signer == deployment.creator)
      && deployment.groupMint == ix.groupMint
      && controls.treasury == ix.treasury
      && ix.tokenProgram == Token2022Id
  {
    var deployment := DataAt(s, ix.editionsDeployment).deployment;
    var controls := DataAt(s, ix.editionsControls).controls;
    if ix.editionsControls != Derive(ids.editionsControls, ControlsSeeds(ix.editionsDeployment)) then Fail(ConstraintSeeds)
    else if !(deployment.cosignerProgramId == SystemProgramId || ix.signer == deployment.creator) then Fail(ConstraintRaw)
    else if deployment.groupMint != ix.groupMint then Fail(ConstraintRaw)
    else if controls.treasury != ix.treasury then Fail(ConstraintRaw)
    else if ix.tokenProgram != Token2022Id then Fail(ConstraintRaw)
    else Pass
  }

  /** Everything the framework does before the handler runs: loading, the
      `init_if_needed` counter records (each at its derived address, created
      zeroed when missing), then the remaining constraints. */
  function PrepareAccounts(
    ids: ProgramIds, s: Accounts, ix: MintWithControlsAccounts, seedPhaseIndex: U64, signers: set<Pubkey>)
    : (r: Result<Accounts>)
    // preparation goes through exactly when the accounts load, both counter
    // records are at their addresses and hold nothing or a counter, and the
    // constraints hold
    ensures r.Success? <==>
      && LoadAccounts(ids, s, ix, signers).Pass?
      && ix.minterStats == MinterStatsAddress(ids, ix.minter)
      && ix.minterStatsPhase == MinterStatsPhaseAddress(ids, ix.minter, seedPhaseIndex)
      && (DataAt(s, ix.minterStats).Empty? || DataAt(s, ix.minterStats).StatsData?)
      && (DataAt(s, ix.minterStatsPhase).Empty? || DataAt(s, ix.minterStatsPhase).StatsData?)
      && CheckConstraints(ids, s, ix).Pass?
    ensures r.Success? ==> LoadAccounts(ids, s, ix, signers).Pass?
    ensures r.Success? ==>
      && ix.minterStats == MinterStatsAddress(ids, ix.minter)
      && ix.minterStatsPhase == MinterStatsPhaseAddress(ids, ix.minter, seedPhaseIndex)
      && DataAt(r.value, ix.minterStats).StatsData? && DataAt(r.value, ix.minterStatsPhase).StatsData?
      && DataAt(r.value, ix.editionsDeployment) == DataAt(s, ix.editionsDeployment)
      && DataAt(r.value, ix.editionsControls) == DataAt(s, ix.editionsControls)
      && CheckConstraints(ids, s, ix).Pass?
  {
    var loaded := LoadAccounts(ids, s, ix, signers);
    if loaded.Fail? then Failure(loaded.error)
    else if ix.minterStats != MinterStatsAddress(ids, ix.minter) then Failure(ConstraintSeeds)
    else
      var s1 := InitIfNeeded(s, ix.minterStats, StatsData(ZeroStats), DataAt(s, ix.minterStats).StatsData?);
      if s1.Failure? then Failure(s1.error)
      else if ix.minterStatsPhase != MinterStatsPhaseAddress(ids, ix.minter, seedPhaseIndex) then Failure(ConstraintSeeds)
      else
        var s2 := InitIfNeeded(s1.value, ix.minterStatsPhase, StatsData(ZeroStats),
                               DataAt(s1.value, ix.minterStatsPhase).StatsData?);
        if s2.Failure? then Failure(s2.error)
        else
          var checked := CheckConstraints(ids, s2.value, ix);
          if checked.Fail? then Failure(checked.error) else Success(s2.value)
  }

  /** The handler up to the delegated call: look up the phase (an index past
      the end panics), consult `check_phase_constraints` and drop its verdict,
      then transfer the phase's price from the payer to the treasury. */
  function PayForPhase(
    s: Accounts, ix: MintWithControlsAccounts, input: MintInput, phaseConstraints: PhaseConstraints)
    : (r: Result<Accounts>)
    requires DataAt(s, ix.editionsControls).ControlsData?
    requires DataAt(s, ix.minterStats).StatsData? && DataAt(s, ix.minterStatsPhase).StatsData?
    ensures var phases := DataAt(s, ix.editionsControls).controls.phases;
      && (input.phaseIndex >= |phases| ==> r == Failure(IndexOutOfBounds))
      && (input.phaseIndex < |phases| ==>
            r == TransferLamports(s, ix.payer, ix.treasury, phases[input.phaseIndex].priceAmount))
  {
    var controls := DataAt(s, ix.editionsControls).controls;
    if input.phaseIndex >= |controls.phases| then Failure(IndexOutOfBounds)
    else
      var phase := controls.phases[input.phaseIndex];
      var _ := phaseConstraints(phase, DataAt(s, ix.minterStats).stats, DataAt(s, ix.minterStatsPhase).stats, controls);
      TransferLamports(s, ix.payer, ix.treasury, phase.priceAmount)
  }

  /** The whole transaction. */
  function MintWithControlsTx(
    ids: ProgramIds, s: Accounts, ix: MintWithControlsAccounts, input: MintInput, seedPhaseIndex: U64,
    signers: set<Pubkey>, phaseConstraints: PhaseConstraints, editionsMint: EditionsMint)
    : (r: Result<Accounts>)
    ensures r.Success? ==> DataAt(s, ix.editionsDeployment).DeploymentData? && DataAt(s, ix.editionsControls).ControlsData?
    ensures r.Success? ==>
      var deployment := DataAt(s, ix.editionsDeployment).deployment;
      var controls := DataAt(s, ix.editionsControls).controls;
      // the cosigner policy
      && (deployment.cosignerProgramId != SystemProgramId ==> ix.signer == deployment.creator)
      // the treasury and group-mint bindings
      && ix.treasury == controls.treasury && ix.groupMint == deployment.groupMint
      // the derived addresses
      && VerifyDerivation(ix.editionsControls, ids.editionsControls, ControlsSeeds(ix.editionsDeployment))
      && ix.minterStats == MinterStatsAddress(ids, ix.minter)
      && ix.minterStatsPhase == MinterStatsPhaseAddress(ids, ix.minter, seedPhaseIndex)
      // the phase exists
      && input.phaseIndex < |controls.phases|
  {
    var prepared := PrepareAccounts(ids, s, ix, seedPhaseIndex, signers);
    if prepared.Failure? then Failure(prepared.error)
    else
      var paid := PayForPhase(prepared.value, ix, input, phaseConstraints);
      if paid.Failure? then Failure(paid.error)
      else editionsMint(paid.value, DelegatedMintCall(ids, ix))
  }

  /** An index past the last phase ends the transaction before any transfer,
      whatever the balances and whatever the editions program would do. */
  lemma PhaseIndexOutOfRange(
    ids: ProgramIds, s: Accounts, ix: MintWithControlsAccounts, input: MintInput, seedPhaseIndex: U64,
    signers: set<Pubkey>, phaseConstraints: PhaseConstraints, editionsMint: EditionsMint)
    requires PrepareAccounts(ids, s, ix, seedPhaseIndex, signers).Success?
    requires input.phaseIndex >= |DataAt(s, ix.editionsControls).controls.phases|
    ensures MintWithControlsTx(ids, s, ix, input, seedPhaseIndex, signers, phaseConstraints, editionsMint)
            == Failure(IndexOutOfBounds)
  {
  }

  /** A call whose accounts check out, whose phase exists and whose payer can
      cover the price goes through the payment and ends as the delegated mint
      ends: it is refused only by the editions program. */
  lemma PaidMintGoesThrough(
    ids: ProgramIds, s: Accounts, ix: MintWithControlsAccounts, input: MintInput, seedPhaseIndex: U64,
    signers: set<Pubkey>, phaseConstraints: PhaseConstraints, editionsMint: EditionsMint)
    requires PrepareAccounts(ids, s, ix, seedPhaseIndex, signers).Success?
    requires input.phaseIndex < |DataAt(s, ix.editionsControls).controls.phases|
    requires Lamports(s, ix.payer) >= DataAt(s, ix.editionsControls).controls.phases[input.phaseIndex].priceAmount
    ensures var paid := PayForPhase(PrepareAccounts(ids, s, ix, seedPhaseIndex, signers).value, ix, input, phaseConstraints);
      && paid.Success?
      && MintWithControlsTx(ids, s, ix, input, seedPhaseIndex, signers, phaseConstraints, editionsMint)
         == editionsMint(paid.value, DelegatedMintCall(ids, ix))
  {
    PrepareKeepsBalances(ids, s, ix, seedPhaseIndex, signers);
  }

  /** On success the editions program was called exactly once, after the
      payment, on a store in which the payer has paid exactly the phase's
      price to the treasury and no record differs from the prepared one. */
  lemma PaymentBeforeMint(
    ids: ProgramIds, s: Accounts, ix: MintWithControlsAccounts, input: MintInput, seedPhaseIndex: U64,
    signers: set<Pubkey>, phaseConstraints: PhaseConstraints, editionsMint: EditionsMint)
    requires MintWithControlsTx(ids, s, ix, input, seedPhaseIndex, signers, phaseConstraints, editionsMint).Success?
    requires ix.payer != ix.treasury
    ensures var prepared := PrepareAccounts(ids, s, ix, seedPhaseIndex, signers);
      var price := DataAt(s, ix.editionsControls).controls.phases[input.phaseIndex].priceAmount;
      && prepared.Success?
      && var paid := PayForPhase(prepared.value, ix, input, phaseConstraints);
      && paid.Success?
      && Lamports(paid.value, ix.payer) == Lamports(s, ix.payer) - price
      && Lamports(paid.value, ix.treasury) == Lamports(s, ix.treasury) + price
      && (forall k :: k != ix.payer && k != ix.treasury ==> Lamports(paid.value, k) == Lamports(s, k))
      && (forall k :: DataAt(paid.value, k) == DataAt(prepared.value, k))
      && MintWithControlsTx(ids, s, ix, input, seedPhaseIndex, signers, phaseConstraints, editionsMint)
         == editionsMint(paid.value, DelegatedMintCall(ids, ix))
  {
    var prepared := PrepareAccounts(ids, s, ix, seedPhaseIndex, signers);
    var controls := DataAt(s, ix.editionsControls).controls;
    assert DataAt(prepared.value, ix.editionsControls).controls == controls;
    PrepareKeepsBalances(ids, s, ix, seedPhaseIndex, signers);
  }

  /** Creating the counter records moves no lamports. */
  lemma PrepareKeepsBalances(
    ids: ProgramIds, s: Accounts, ix: MintWithControlsAccounts, seedPhaseIndex: U64, signers: set<Pubkey>)
    requires PrepareAccounts(ids, s, ix, seedPhaseIndex, signers).Success?
    ensures forall k :: Lamports(PrepareAccounts(ids, s, ix, seedPhaseIndex, signers).value, k) == Lamports(s, k)
  {
  }

  /** A payer who cannot cover the phase's price ends the transaction with
      InsufficientFunds. */
  lemma UnpaidPhaseFails(
    ids: ProgramIds, s: Accounts, ix: MintWithControlsAccounts, input: MintInput, seedPhaseIndex: U64,
    signers: set<Pubkey>, phaseConstraints: PhaseConstraints, editionsMint: EditionsMint)
    requires PrepareAccounts(ids, s, ix, seedPhaseIndex, signers).Success?
    requires input.phaseIndex < |DataAt(s, ix.editionsControls).controls.phases|
    requires Lamports(s, ix.payer) < DataAt(s, ix.editionsControls).controls.phases[input.phaseIndex].priceAmount
    ensures MintWithControlsTx(ids, s, ix, input, seedPhaseIndex, signers, phaseConstraints, editionsMint)
            == Failure(InsufficientFunds)
  {
    PrepareKeepsBalances(ids, s, ix, seedPhaseIndex, signers);
  }

  /** The delegated call is signed by the controls record itself: its signer
      is the address the controls program derives from the seeds it signs
      with, ["editions_controls", deployment]. */
  lemma DelegatedSignerIsControls(
    ids: ProgramIds, s: Accounts, ix: MintWithControlsAccounts, seedPhaseIndex: U64, signers: set<Pubkey>)
    requires PrepareAccounts(ids, s, ix, seedPhaseIndex, signers).Success?
    ensures var call := DelegatedMintCall(ids, ix);
      && VerifyDerivation(call.signer, call.signerProgram, call.signerSeeds)
      && call.signerSeeds == [Bytes("editions_controls"), KeyBytes(ix.editionsDeployment)]
      && call.editionsDeployment == ix.editionsDeployment
  {
  }

  /** A failing delegated mint fails the transaction with its own error. */
  lemma MintFailureAborts(
    ids: ProgramIds, s: Accounts, ix: MintWithControlsAccounts, input: MintInput, seedPhaseIndex: U64,
    signers: set<Pubkey>, phaseConstraints: PhaseConstraints, editionsMint: EditionsMint, e: Error)
    requires PrepareAccounts(ids, s, ix, seedPhaseIndex, signers).Success?
    requires var paid := PayForPhase(PrepareAccounts(ids, s, ix, seedPhaseIndex, signers).value, ix, input, phaseConstraints);
      paid.Success? && editionsMint(paid.value, DelegatedMintCall(ids, ix)) == Failure(e)
    ensures MintWithControlsTx(ids, s, ix, input, seedPhaseIndex, signers, phaseConstraints, editionsMint)
            == Failure(e)
  {
  }

  /** The verdict of `check_phase_constraints` is dropped: the transaction
      ends the same whatever that function decides. */
  lemma PhaseConstraintsIgnored(
    ids: ProgramIds, s: Accounts, ix: MintWithControlsAccounts, input: MintInput, seedPhaseIndex: U64,
    signers: set<Pubkey>, editionsMint: EditionsMint, accept: PhaseConstraints, reject: PhaseConstraints)
    ensures MintWithControlsTx(ids, s, ix, input, seedPhaseIndex, signers, accept, editionsMint)
            == MintWithControlsTx(ids, s, ix, input, seedPhaseIndex, signers, reject, editionsMint)
  {
  }

  /** The handler increments no counter: before the delegated call the
      minter's two counter records hold what they held, or zero when the
      framework has just created them. */
  lemma CountersUntouched(
    ids: ProgramIds, s: Accounts, ix: MintWithControlsAccounts, seedPhaseIndex: U64, signers: set<Pubkey>)
    requires PrepareAccounts(ids, s, ix, seedPhaseIndex, signers).Success?
    ensures var prepared := PrepareAccounts(ids, s, ix, seedPhaseIndex, signers).value;
      && DataAt(prepared, ix.minterStats) == (if DataAt(s, ix.minterStats).Empty? then StatsData(ZeroStats)
                                              else DataAt(s, ix.minterStats))
      && DataAt(prepared, ix.minterStatsPhase) == (if DataAt(s, ix.minterStatsPhase).Empty? then StatsData(ZeroStats)
                                                   else DataAt(s, ix.minterStatsPhase))
      && (forall k :: k != ix.minterStats && k != ix.minterStatsPhase ==> DataAt(prepared, k) == DataAt(s, k))
  {
    assert ix.minterStats != ix.minterStatsPhase;
  }

  /** The handler as it runs against the store. The framework creates the
      missing counter records; the handler looks up the phase, calls
      `check_phase_constraints` and ignores what it returns, pays the
      treasury, then makes the delegated call. Any failure puts back the
      store as it was before the transaction, payment included. */
  method MintWithControls(
    store: Store, ids: ProgramIds, ix: MintWithControlsAccounts, input: MintInput, seedPhaseIndex: U64,
    signers: set<Pubkey>, phaseConstraints: PhaseConstraints, editionsMint: EditionsMint)
    returns (r: Outcome)
    modifies store
    ensures r.Pass? ==> MintWithControlsTx(ids, old(store.accounts), ix, input, seedPhaseIndex, signers,
                                           phaseConstraints, editionsMint) == Success(store.accounts)
    ensures r.Fail? ==> MintWithControlsTx(ids, old(store.accounts), ix, input, seedPhaseIndex, signers,
                                           phaseConstraints, editionsMint) == Failure(r.error)
    ensures r.Fail? ==> store.accounts == old(store.accounts)
  {
    var snapshot := store.accounts;
    var loaded := LoadAccounts(ids, store.accounts, ix, signers);
    if loaded.Fail? {
      return loaded;
    }

    // init_if_needed: minter_stats, then minter_stats_phase
    if ix.minterStats != MinterStatsAddress(ids, ix.minter) {
      return Fail(ConstraintSeeds);
    }
    var existing := DataAt(store.accounts, ix.minterStats);
    if existing.Empty? {
      store.Write(ix.minterStats, StatsData(ZeroStats));
    } else if !existing.StatsData? {
      return Fail(AccountDiscriminatorMismatch);
    }
    if ix.minterStatsPhase != MinterStatsPhaseAddress(ids, ix.minter, seedPhaseIndex) {
      store.Abort(snapshot);
      return Fail(ConstraintSeeds);
    }
    existing := DataAt(store.accounts, ix.minterStatsPhase);
    if existing.Empty? {
      store.Write(ix.minterStatsPhase, StatsData(ZeroStats));
    } else if !existing.StatsData? {
      store.Abort(snapshot);
      return Fail(AccountDiscriminatorMismatch);
    }
    var checked := CheckConstraints(ids, store.accounts, ix);
    if checked.Fail? {
      store.Abort(snapshot);
      return checked;
    }
    assert store.accounts == PrepareAccounts(ids, snapshot, ix, seedPhaseIndex, signers).value;

    // the handler
    var controls := DataAt(store.accounts, ix.editionsControls).controls;
    if input.phaseIndex >= |controls.phases| {
      store.Abort(snapshot);
      return Fail(IndexOutOfBounds);
    }
    var currentPhase := controls.phases[input.phaseIndex];
    var _ := phaseConstraints(currentPhase, DataAt(store.accounts, ix.minterStats).stats,
                              DataAt(store.accounts, ix.minterStatsPhase).stats, controls);

    var transferred := store.Transfer(ix.payer, ix.treasury, currentPhase.priceAmount);
    if transferred.Fail? {
      store.Abort(snapshot);
      return transferred;
    }

    var minted := editionsMint(store.accounts, DelegatedMintCall(ids, ix));
    if minted.Failure? {
      store.Abort(snapshot);
      return Fail(minted.error);
    }
    store.accounts := minted.value;
    r := Pass;
  }
}
