/** `create_metadata` of the metadata program: validates who signed for the
    mint, then fills in a fresh metadata record at the mint's derived address. */
module MetadataProgram {
  import opened Chain
  import opened Ledger

  /** `migrator_lite::ID`, the one whitelisted migrator program. */
  const MigratorLiteId: Pubkey := Key("migr1m1An7f3X75nKuuUn9mm3844miK62ZohpqRfQHp")

  /** `CreateMetadataInput`: the fields the handler copies. */
  datatype CreateMetadataInput = CreateMetadataInput(
    name: string,
    symbol: string,
    asset: Asset,
    description: Option<string>,
    updateAuthority: Pubkey)

  /** The accounts of `CreateMetadata`, in declaration order. The migrator
      program is an optional account. */
  datatype CreateMetadataAccounts = CreateMetadataAccounts(
    signer: Pubkey,
    payer: Pubkey,
    metadata: Pubkey,
    mint: Pubkey,
    authority: Pubkey,
    systemProgram: Pubkey,
    invokedMigratorProgram: Option<Pubkey>)

  /** The metadata record of a mint lives at seeds ["metadata", mint]. */
  function MetadataAddress(ids: ProgramIds, mint: Pubkey): Pubkey
  {
    Derive(ids.metadata, [Bytes("metadata"), KeyBytes(mint)])
  }

  /** The address through which the migrator signs for a mint:
      seeds ["metadata_signer", mint] of the migrator program. */
  function MigratorSigner(mint: Pubkey): Pubkey
  {
    Derive(MigratorLiteId, [Bytes("metadata_signer"), KeyBytes(mint)])
  }

  /** `assert_is_valid_signer`: with no migrator program any signer is
      accepted; a migrator other than `migrator_lite` is refused; through
      `migrator_lite` the signer must be its derived signer for the mint. */
  function AssertIsValidSigner(signer: Pubkey, mint: Pubkey, invokedMigratorProgram: Option<Pubkey>)
    : (r: Outcome)
    ensures invokedMigratorProgram.None? ==> r.Pass?
    ensures invokedMigratorProgram.Some? && invokedMigratorProgram.value != MigratorLiteId
            ==> r == Fail(InvalidSignedProgram)
    ensures invokedMigratorProgram == Some(MigratorLiteId)
            ==> (r.Pass? <==> signer == MigratorSigner(mint))
    ensures r.Fail? ==> r.error in {InvalidSignedProgram, DerivedKeyInvalid}
  {
    match invokedMigratorProgram
    case Some(program) =>
      if program != MigratorLiteId then Fail(InvalidSignedProgram)
      else AssertPdaDerivation(program, signer, [Bytes("metadata_signer"), KeyBytes(mint)])
    case None => Pass
  }

  /** The checks the framework makes while it loads the accounts: three
      signatures, a mint of the token program, the system program. */
  function LoadAccounts(s: Accounts, ix: CreateMetadataAccounts, signers: set<Pubkey>): (r: Outcome)
    ensures r.Pass? <==>
      && ix.signer in signers && ix.payer in signers && ix.authority in signers
      && DataAt(s, ix.mint).MintData? && DataAt(s, ix.mint).owner == TokenProgramId
      && ix.systemProgram == SystemProgramId
  {
    var m := DataAt(s, ix.mint);
    if ix.signer !in signers || ix.payer !in signers then Fail(AccountNotSigner)
    else if m.Empty? then Fail(AccountNotInitialized)
    else if !m.MintData? || m.owner != TokenProgramId then Fail(AccountOwnedByWrongProgram)
    else if ix.authority !in signers then Fail(AccountNotSigner)
    else RequireProgram(ix.systemProgram, SystemProgramId)
  }

  /** The record a successful call writes. */
  function NewMetadata(ix: CreateMetadataAccounts, input: CreateMetadataInput): Metadata
  {
    ZeroMetadata.(
      mint := ix.mint,
      isMutable := true,
      symbol := input.symbol,
      name := input.name,
      creator := ix.authority,
      description := input.description,
      asset := input.asset,
      updateAuthority := input.updateAuthority)
  }

  /** The whole transaction: account checks, `init` of the record at the
      mint's derived address, signer validation, then the field writes. */
  function CreateMetadataTx(
    ids: ProgramIds, s: Accounts, ix: CreateMetadataAccounts, input: CreateMetadataInput, signers: set<Pubkey>)
    : (r: Result<Accounts>)
    // it goes through exactly when the accounts load, the record is new and at
    // the mint's derived address, and the signer is valid
    ensures r.Success? <==>
      && LoadAccounts(s, ix, signers).Pass?
      && ix.metadata == MetadataAddress(ids, ix.mint) && DataAt(s, ix.metadata).Empty?
      && AssertIsValidSigner(ix.authority, ix.mint, ix.invokedMigratorProgram).Pass?
  {
    var loaded := LoadAccounts(s, ix, signers);
    if loaded.Fail? then Failure(loaded.error)
    else if ix.metadata != MetadataAddress(ids, ix.mint) then Failure(ConstraintSeeds)
    else
      var created := Init(s, ix.metadata, MetadataData(ZeroMetadata));
      if created.Failure? then Failure(created.error)
      else
        var valid := AssertIsValidSigner(ix.authority, ix.mint, ix.invokedMigratorProgram);
        if valid.Fail? then Failure(valid.error)
        else Success(Put(created.value, ix.metadata, MetadataData(NewMetadata(ix, input))))
  }

  /** A successful call leaves exactly one new record, at the mint's derived
      address: mutable, for this mint, created by the authority, with every
      input field copied. Nothing else changes. */
  lemma CreatedRecord(
    ids: ProgramIds, s: Accounts, ix: CreateMetadataAccounts, input: CreateMetadataInput, signers: set<Pubkey>)
    requires CreateMetadataTx(ids, s, ix, input, signers).Success?
    ensures var s' := CreateMetadataTx(ids, s, ix, input, signers).value;
      && DataAt(s', MetadataAddress(ids, ix.mint)) == MetadataData(Metadata(
           ix.mint, true, input.symbol, input.name, ix.authority,
           input.description, input.asset, input.updateAuthority))
      && (forall k :: k != MetadataAddress(ids, ix.mint) ==> DataAt(s', k) == DataAt(s, k))
      && (forall k :: Lamports(s', k) == Lamports(s, k))
  {
  }

  /** A mint's metadata can be created only once. */
  lemma CreateOnce(
    ids: ProgramIds, s: Accounts, ix: CreateMetadataAccounts, input: CreateMetadataInput, signers: set<Pubkey>,
    ix2: CreateMetadataAccounts, input2: CreateMetadataInput, signers2: set<Pubkey>)
    requires CreateMetadataTx(ids, s, ix, input, signers).Success?
    requires ix2.mint == ix.mint
    ensures CreateMetadataTx(ids, CreateMetadataTx(ids, s, ix, input, signers).value, ix2, input2, signers2).Failure?
  {
    CreatedRecord(ids, s, ix, input, signers);
  }

  /** Without a migrator program the authority's own signature is enough: a
      call whose accounts load and whose record is new always succeeds. */
  lemma NoMigratorAcceptsAnySigner(
    ids: ProgramIds, s: Accounts, ix: CreateMetadataAccounts, input: CreateMetadataInput, signers: set<Pubkey>)
    requires ix.invokedMigratorProgram.None?
    requires LoadAccounts(s, ix, signers).Pass?
    requires ix.metadata == MetadataAddress(ids, ix.mint) && DataAt(s, ix.metadata).Empty?
    ensures CreateMetadataTx(ids, s, ix, input, signers).Success?
  {
  }

  /** Through `migrator_lite`, its derived signer for the mint is accepted: a
      call whose accounts load and whose record is new succeeds. */
  lemma MigratorSignerAccepted(
    ids: ProgramIds, s: Accounts, ix: CreateMetadataAccounts, input: CreateMetadataInput, signers: set<Pubkey>)
    requires ix.invokedMigratorProgram == Some(MigratorLiteId) && ix.authority == MigratorSigner(ix.mint)
    requires LoadAccounts(s, ix, signers).Pass?
    requires ix.metadata == MetadataAddress(ids, ix.mint) && DataAt(s, ix.metadata).Empty?
    ensures CreateMetadataTx(ids, s, ix, input, signers).Success?
  {
  }

  /** The handler as it runs against the store: the framework creates the
      zeroed record, the handler validates the signer and then assigns the
      record's fields; a failure puts the store back, so a rejected signer
      leaves no record behind. */
  method CreateMetadata(
    store: Store, ids: ProgramIds, ix: CreateMetadataAccounts, input: CreateMetadataInput, signers: set<Pubkey>)
    returns (r: Outcome)
    modifies store
    ensures r.Pass? ==> CreateMetadataTx(ids, old(store.accounts), ix, input, signers) == Success(store.accounts)
    ensures r.Fail? ==> CreateMetadataTx(ids, old(store.accounts), ix, input, signers) == Failure(r.error)
    ensures r.Fail? ==> store.accounts == old(store.accounts)
  {
    var snapshot := store.accounts;
    var loaded := LoadAccounts(store.accounts, ix, signers);
    if loaded.Fail? {
      return loaded;
    }
    if ix.metadata != MetadataAddress(ids, ix.mint) {
      return Fail(ConstraintSeeds);
    }
    if !DataAt(store.accounts, ix.metadata).Empty? {
      return Fail(AccountAlreadyInUse);
    }
    store.Write(ix.metadata, MetadataData(ZeroMetadata));

    // the handler
    var valid := AssertIsValidSigner(ix.authority, ix.mint, ix.invokedMigratorProgram);
    if valid.Fail? {
      store.Abort(snapshot);
      return valid;
    }
    var metadata := DataAt(store.accounts, ix.metadata).metadata;
    metadata := metadata.(mint := ix.mint);
    metadata := metadata.(isMutable := true);
    metadata := metadata.(symbol := input.symbol);
    metadata := metadata.(name := input.name);
    metadata := metadata.(creator := ix.authority);
    metadata := metadata.(description := input.description);
    metadata := metadata.(asset := input.asset);
    metadata := metadata.(updateAuthority := input.updateAuthority);
    store.Write(ix.metadata, MetadataData(metadata));
    r := Pass;
  }
}
