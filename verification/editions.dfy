/** `update_mint_authority` of the editions program: once every token of a
    deployment has been issued, its creator takes over the update authority of
    the mint's token metadata from the deployment's own derived address. */
module EditionsProgram {
  import opened Chain
  import opened Ledger

  /** The accounts of `UpdateMintAuthorityCtx`, in declaration order. */
  datatype UpdateMintAuthorityAccounts = UpdateMintAuthorityAccounts(
    editionsDeployment: Pubkey,
    payer: Pubkey,
    mint: Pubkey,
    tokenProgram: Pubkey,
    systemProgram: Pubkey)

  /** The seeds of a deployment's address: ["editions_deployment", symbol]. */
  function DeploymentSeeds(symbol: string): seq<Seed>
  {
    [Bytes("editions_deployment"), Bytes(symbol)]
  }

  /** The token-2022 `update_authority` instruction the handler signs for: on
      `mint`, replace `currentAuthority` by `newAuthority`, signed as the
      address `signerProgram` derives from `signerSeeds`. */
  datatype UpdateAuthorityCall = UpdateAuthorityCall(
    program: Pubkey,
    mint: Pubkey,
    currentAuthority: Pubkey,
    newAuthority: Option<Pubkey>,
    signerProgram: Pubkey,
    signerSeeds: seq<Seed>)

  /** `OptionalNonZeroPubkey::try_from(Some(k))`: the all-zero key is refused. */
  function NonZero(k: Pubkey): (r: Result<Option<Pubkey>>)
    ensures r.Success? <==> k != SystemProgramId
    ensures r.Success? ==> r.value == Some(k)
    ensures r.Failure? ==> r.error == InvalidArgument
  {
    if k == SystemProgramId then Failure(InvalidArgument) else Success(Some(k))
  }

  /** The handler's guard chain, over the deployment (at `deploymentKey`), the
      raw data of the mint account and the payer: the call it hands to the
      token program, or the error it stops with. */
  function UpdateMintAuthority(
    editionsProgram: Pubkey, deploymentKey: Pubkey, deployment: EditionsDeployment,
    mint: Pubkey, mintData: Data, payer: Pubkey)
    : (r: Result<UpdateAuthorityCall>)
    // completion is checked first, the creator second
    ensures deployment.maxNumberOfTokens != deployment.numberOfTokensIssued ==> r == Failure(MintNotComplete)
    ensures deployment.maxNumberOfTokens == deployment.numberOfTokensIssued && deployment.creator != payer
            ==> r == Failure(InvalidCreator)
    // a mint without the token-metadata extension
    ensures deployment.maxNumberOfTokens == deployment.numberOfTokensIssued && deployment.creator == payer
            && mintData.MintData? && mintData.extension.None?
            ==> r == Failure(MetadataNotFound)
    // metadata whose update authority is no longer the deployment
    ensures deployment.maxNumberOfTokens == deployment.numberOfTokensIssued && deployment.creator == payer
            && mintData.MintData? && mintData.extension.Some? && deploymentKey != SystemProgramId
            && mintData.extension.value.updateAuthority != Some(deploymentKey)
            ==> r == Failure(UpdateAuthorityAlreadyChanged)
    // on success the authority passes from the deployment to the payer, signed as the deployment
    ensures r.Success? <==>
            && deployment.maxNumberOfTokens == deployment.numberOfTokensIssued
            && deployment.creator == payer
            && mintData.MintData? && mintData.extension.Some?
            && deploymentKey != SystemProgramId
            && mintData.extension.value.updateAuthority == Some(deploymentKey)
            && payer != SystemProgramId
    ensures r.Success? ==> r.value == UpdateAuthorityCall(
              Token2022Id, mint, deploymentKey, Some(payer),
              editionsProgram, DeploymentSeeds(deployment.symbol))
  {
    if deployment.maxNumberOfTokens != deployment.numberOfTokensIssued then Failure(MintNotComplete)
    else if deployment.creator != payer then Failure(InvalidCreator)
    // StateWithExtensions::<Mint>::unpack
    else if !mintData.MintData? then Failure(InvalidAccountData)
    else if mintData.extension.None? then Failure(MetadataNotFound)
    else
      var expected := NonZero(deploymentKey);
      if expected.Failure? then Failure(expected.error)
      else if mintData.extension.value.updateAuthority != expected.value then Failure(UpdateAuthorityAlreadyChanged)
      else
        var newAuthority := NonZero(payer);
        if newAuthority.Failure? then Failure(newAuthority.error)
        else Success(UpdateAuthorityCall(
          Token2022Id, mint, deploymentKey, newAuthority.value,
          editionsProgram, DeploymentSeeds(deployment.symbol)))
  }

  /** The account checks the framework makes: a deployment record at the
      address derived from its own symbol, a signing payer, the system program
      and the token-2022 program. */
  function CheckAccounts(ids: ProgramIds, s: Accounts, ix: UpdateMintAuthorityAccounts, signers: set<Pubkey>)
    : (r: Outcome)
    ensures r.Pass? <==>
      && DataAt(s, ix.editionsDeployment).DeploymentData?
      && ix.payer in signers
      && ix.systemProgram == SystemProgramId
      && ix.editionsDeployment
         == Derive(ids.editions, DeploymentSeeds(DataAt(s, ix.editionsDeployment).deployment.symbol))
      && ix.tokenProgram == Token2022Id
  {
    var d := DataAt(s, ix.editionsDeployment);
    if !d.DeploymentData? then CheckKind(d, false)
    else if ix.payer !in signers then Fail(AccountNotSigner)
    else if ix.systemProgram != SystemProgramId then Fail(InvalidProgramId)
    else if ix.editionsDeployment != Derive(ids.editions, DeploymentSeeds(d.deployment.symbol)) then Fail(ConstraintSeeds)
    else if ix.tokenProgram != Token2022Id then Fail(ConstraintRaw)
    else Pass
  }

  /** What token-2022's `update_authority` does to the mint when it succeeds:
      the metadata's update authority becomes the call's new authority. */
  function ApplyUpdateAuthority(s: Accounts, call: UpdateAuthorityCall): (r: Accounts)
    requires DataAt(s, call.mint).MintData? && DataAt(s, call.mint).extension.Some?
    ensures DataAt(r, call.mint) == DataAt(s, call.mint).(extension := Some(TokenMetadata(call.newAuthority)))
    ensures forall k :: k != call.mint ==> DataAt(r, k) == DataAt(s, k)
    ensures forall k :: Lamports(r, k) == Lamports(s, k)
  {
    var d := DataAt(s, call.mint);
    Put(s, call.mint, d.(extension := Some(d.extension.value.(updateAuthority := call.newAuthority))))
  }

  /** The whole transaction as intended: the borrow of the mint's data is
      released before the token-2022 call (see
      `UpdateMintAuthorityTxAsWritten` for the handler as written).
      `tokenProgram` is whether token-2022 accepts the call; what it checks is
      not part of this model. */
  function UpdateMintAuthorityTx(
    ids: ProgramIds, s: Accounts, ix: UpdateMintAuthorityAccounts, signers: set<Pubkey>, tokenProgram: Outcome)
    : (r: Result<Accounts>)
    ensures r.Success? ==> ix.payer in signers && CheckAccounts(ids, s, ix, signers).Pass?
    ensures CheckAccounts(ids, s, ix, signers).Fail? ==> r == Failure(CheckAccounts(ids, s, ix, signers).error)
    // once the accounts check out, the guard chain and token-2022 decide
    ensures CheckAccounts(ids, s, ix, signers).Pass? ==>
      var call := UpdateMintAuthority(ids.editions, ix.editionsDeployment, DataAt(s, ix.editionsDeployment).deployment,
                                      ix.mint, DataAt(s, ix.mint), ix.payer);
      && (r.Success? <==> call.Success? && tokenProgram.Pass?)
      && (call.Failure? ==> r == Failure(call.error))
      && (call.Success? && tokenProgram.Fail? ==> r == Failure(tokenProgram.error))
  {
    var checked := CheckAccounts(ids, s, ix, signers);
    if checked.Fail? then Failure(checked.error)
    else
      var call := UpdateMintAuthority(ids.editions, ix.editionsDeployment, DataAt(s, ix.editionsDeployment).deployment,
                                      ix.mint, DataAt(s, ix.mint), ix.payer);
      if call.Failure? then Failure(call.error)
      else if tokenProgram.Fail? then Failure(tokenProgram.error)
      else Success(ApplyUpdateAuthority(s, call.value))
  }

  /** The transaction as the handler is written: the `Ref` bound to the mint's
      data while its extensions are read is still alive when `invoke_signed`
      runs, and the token-2022 call lists the mint as writable, so the
      runtime's mutable borrow of the mint's data fails before the call is
      made. Every guard runs as in `UpdateMintAuthorityTx`; token-2022 is
      never reached. */
  function UpdateMintAuthorityTxAsWritten(
    ids: ProgramIds, s: Accounts, ix: UpdateMintAuthorityAccounts, signers: set<Pubkey>)
    : (r: Result<Accounts>)
    ensures r.Failure?
    ensures CheckAccounts(ids, s, ix, signers).Fail? ==> r == Failure(CheckAccounts(ids, s, ix, signers).error)
    ensures CheckAccounts(ids, s, ix, signers).Pass? ==>
      var call := UpdateMintAuthority(ids.editions, ix.editionsDeployment, DataAt(s, ix.editionsDeployment).deployment,
                                      ix.mint, DataAt(s, ix.mint), ix.payer);
      && (call.Failure? ==> r == Failure(call.error))
      && (call.Success? ==> r == Failure(AccountBorrowFailed))
  {
    var checked := CheckAccounts(ids, s, ix, signers);
    if checked.Fail? then Failure(checked.error)
    else
      var call := UpdateMintAuthority(ids.editions, ix.editionsDeployment, DataAt(s, ix.editionsDeployment).deployment,
                                      ix.mint, DataAt(s, ix.mint), ix.payer);
      if call.Failure? then Failure(call.error)
      else Failure(AccountBorrowFailed)
  }

  /** Wherever the intended hand-off goes through, the handler as written
      fails with AccountBorrowFailed instead; elsewhere the two agree. */
  lemma BorrowBlocksHandOff(
    ids: ProgramIds, s: Accounts, ix: UpdateMintAuthorityAccounts, signers: set<Pubkey>, tokenProgram: Outcome)
    ensures UpdateMintAuthorityTx(ids, s, ix, signers, tokenProgram).Success?
            ==> UpdateMintAuthorityTxAsWritten(ids, s, ix, signers) == Failure(AccountBorrowFailed)
    ensures UpdateMintAuthorityTxAsWritten(ids, s, ix, signers) != Failure(AccountBorrowFailed)
            ==> UpdateMintAuthorityTxAsWritten(ids, s, ix, signers) == UpdateMintAuthorityTx(ids, s, ix, signers, tokenProgram)
  {
  }

  /** A sold-out deployment whose creator calls with every account right: the
      intended hand-off goes through, the handler as written does not. */
  lemma HandOffWitness()
    ensures var ids := ProgramIds(Key("editions"), Key("controls"), Key("metadata"), Key("inscriptions"));
      var deploymentKey := Derive(ids.editions, DeploymentSeeds("ED"));
      var creator := Key("creator");
      var mint := Key("mint");
      var s := map[
        deploymentKey := Account(0, DeploymentData(EditionsDeployment(creator, 10, 10, SystemProgramId, mint, "ED"))),
        mint := Account(0, MintData(Token2022Id, Some(TokenMetadata(Some(deploymentKey)))))];
      var ix := UpdateMintAuthorityAccounts(deploymentKey, creator, mint, Token2022Id, SystemProgramId);
      && UpdateMintAuthorityTx(ids, s, ix, {creator}, Pass).Success?
      && UpdateMintAuthorityTxAsWritten(ids, s, ix, {creator}) == Failure(AccountBorrowFailed)
  {
  }

  /** The hand-off is signed as the deployment: the signer seeds derive the
      very address that holds the update authority. */
  lemma HandOffSignedByDeployment(
    ids: ProgramIds, s: Accounts, ix: UpdateMintAuthorityAccounts, signers: set<Pubkey>)
    requires CheckAccounts(ids, s, ix, signers).Pass?
    requires UpdateMintAuthority(ids.editions, ix.editionsDeployment, DataAt(s, ix.editionsDeployment).deployment,
                                 ix.mint, DataAt(s, ix.mint), ix.payer).Success?
    ensures var call := UpdateMintAuthority(ids.editions, ix.editionsDeployment,
                                            DataAt(s, ix.editionsDeployment).deployment,
                                            ix.mint, DataAt(s, ix.mint), ix.payer).value;
      VerifyDerivation(call.currentAuthority, call.signerProgram, call.signerSeeds)
  {
  }

  /** On success only the mint changes, and in it only the update authority,
      which becomes the payer; the deployment record (counts, creator,
      symbol) is left as it was. */
  lemma HandOffEffect(
    ids: ProgramIds, s: Accounts, ix: UpdateMintAuthorityAccounts, signers: set<Pubkey>, tokenProgram: Outcome)
    requires UpdateMintAuthorityTx(ids, s, ix, signers, tokenProgram).Success?
    ensures var s' := UpdateMintAuthorityTx(ids, s, ix, signers, tokenProgram).value;
      && DataAt(s', ix.mint) == DataAt(s, ix.mint).(extension := Some(TokenMetadata(Some(ix.payer))))
      && DataAt(s', ix.editionsDeployment) == DataAt(s, ix.editionsDeployment)
      && (forall k :: k != ix.mint ==> DataAt(s', k) == DataAt(s, k))
      && (forall k :: Lamports(s', k) == Lamports(s, k))
  {
    var d := DataAt(s, ix.editionsDeployment);
    assert d.DeploymentData?;
    assert ix.mint != ix.editionsDeployment;
  }

  /** Relinquishment happens once: after a successful hand-off to a payer
      other than the deployment itself, calling again fails with
      UpdateAuthorityAlreadyChanged. */
  lemma {:induction false} SecondHandOffFails(
    ids: ProgramIds, s: Accounts, ix: UpdateMintAuthorityAccounts, signers: set<Pubkey>,
    tokenProgram: Outcome, again: Outcome)
    requires UpdateMintAuthorityTx(ids, s, ix, signers, tokenProgram).Success?
    requires ix.payer != ix.editionsDeployment
    ensures UpdateMintAuthorityTx(ids, UpdateMintAuthorityTx(ids, s, ix, signers, tokenProgram).value,
                                  ix, signers, again) == Failure(UpdateAuthorityAlreadyChanged)
  {
    HandOffEffect(ids, s, ix, signers, tokenProgram);
  }
}
