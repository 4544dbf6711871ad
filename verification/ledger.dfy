/** The account store: every account is a balance in lamports and the record
    its owning program keeps in it. A transaction reads and rewrites this
    store; when any step of it fails, the runtime discards every change. */
module Ledger {
  import opened Chain

  /** `EditionsDeployment`: the fields the handlers of this model read. */
  datatype EditionsDeployment = EditionsDeployment(
    creator: Pubkey,
    maxNumberOfTokens: nat,
    numberOfTokensIssued: nat,
    cosignerProgramId: Pubkey,
    groupMint: Pubkey,
    symbol: string)

  /** A sale phase of `EditionsControls`; only its price is read here. */
  datatype Phase = Phase(priceAmount: nat)

  /** `EditionsControls`: the ordered phases and the treasury receiving payments. */
  datatype EditionsControls = EditionsControls(phases: seq<Phase>, treasury: Pubkey)

  /** `MinterStats`: a per-minter (or per-minter-per-phase) mint counter. */
  datatype MinterStats = MinterStats(mintCount: nat)

  /** The token-metadata extension of a token-2022 mint. Its update authority
      is an `OptionalNonZeroPubkey`: None stands for the all-zero key. */
  datatype TokenMetadata = TokenMetadata(updateAuthority: Option<Pubkey>)

  /** The `Asset` of a metadata record, kept as its serialised bytes: the
      handler copies it without looking inside. */
  datatype Asset = Asset(encoded: seq<bv8>)

  /** `Metadata` of the metadata program. */
  datatype Metadata = Metadata(
    mint: Pubkey,
    isMutable: bool,
    symbol: string,
    name: string,
    creator: Pubkey,
    description: Option<string>,
    asset: Asset,
    updateAuthority: Pubkey)

  /** The variants of `MediaType` and `EncodingType`, named by their tags. */
  datatype MediaType = MediaType(variant: string)
  datatype EncodingType = EncodingType(variant: string)

  /** `Inscription` of the inscriptions program. */
  datatype Inscription = Inscription(
    authority: Pubkey,
    root: Pubkey,
    mediaType: MediaType,
    encodingType: EncodingType,
    inscriptionData: Pubkey,
    order: nat,
    size: nat,
    validationHash: Option<string>)

  /** `InscriptionSummary`: the fields `make_inscription_immutable` writes. */
  datatype InscriptionSummary = InscriptionSummary(
    inscriptionCountImmutables: nat,
    lastInscription: Pubkey,
    lastInscriber: Pubkey,
    lastInscriptionCreateTime: int)

  /** What an account holds. Empty is an account no program has initialised
      (a wallet, or an address nothing has been created at). */
  datatype Data =
    | Empty
    | MintData(owner: Pubkey, extension: Option<TokenMetadata>)
    | DeploymentData(deployment: EditionsDeployment)
    | ControlsData(controls: EditionsControls)
    | StatsData(stats: MinterStats)
    | MetadataData(metadata: Metadata)
    | InscriptionData(inscription: Inscription)
    | SummaryData(summary: InscriptionSummary)

  datatype Account = Account(lamports: nat, data: Data)

  type Accounts = map<Pubkey, Account>

  /** The zero-initialised records that `init` and `init_if_needed` create. */
  const ZeroStats: MinterStats := MinterStats(0)
  const ZeroSummary: InscriptionSummary := InscriptionSummary(0, SystemProgramId, SystemProgramId, 0)
  const ZeroMetadata: Metadata :=
    Metadata(SystemProgramId, false, "", "", SystemProgramId, None, Asset([]), SystemProgramId)

  function Lamports(s: Accounts, k: Pubkey): nat
  {
    if k in s then s[k].lamports else 0
  }

  function DataAt(s: Accounts, k: Pubkey): Data
  {
    if k in s then s[k].data else Empty
  }

  /** The store with the record at `k` replaced and its balance kept. */
  function Put(s: Accounts, k: Pubkey, d: Data): (r: Accounts)
    ensures DataAt(r, k) == d && Lamports(r, k) == Lamports(s, k)
    ensures forall j :: j != k ==> DataAt(r, j) == DataAt(s, j) && Lamports(r, j) == Lamports(s, j)
  {
    s[k := Account(Lamports(s, k), d)]
  }

  function SetLamports(s: Accounts, k: Pubkey, n: nat): Accounts
  {
    s[k := Account(n, DataAt(s, k))]
  }

  /** The system program's `transfer`: fails with InsufficientFunds unless
      `from` holds at least `amount` lamports; otherwise moves them to `to`.
      No record changes. */
  function TransferLamports(s: Accounts, from: Pubkey, to: Pubkey, amount: nat): (r: Result<Accounts>)
    ensures r.Success? <==> Lamports(s, from) >= amount
    ensures r.Failure? ==> r.error == InsufficientFunds
    ensures r.Success? && from != to ==>
      Lamports(r.value, from) == Lamports(s, from) - amount &&
      Lamports(r.value, to) == Lamports(s, to) + amount
    ensures r.Success? && from == to ==> Lamports(r.value, from) == Lamports(s, from)
    ensures r.Success? ==> forall k :: k != from && k != to ==> Lamports(r.value, k) == Lamports(s, k)
    ensures r.Success? ==> forall k :: DataAt(r.value, k) == DataAt(s, k)
  {
    if Lamports(s, from) < amount then Failure(InsufficientFunds)
    else
      var debited := SetLamports(s, from, Lamports(s, from) - amount);
      Success(SetLamports(debited, to, Lamports(debited, to) + amount))
  }

  /** The kind check `Account<'info, T>` makes on a record: an account no
      program initialised fails with AccountNotInitialized, a record of
      another kind with AccountDiscriminatorMismatch. */
  function CheckKind(d: Data, isKind: bool): (r: Outcome)
    ensures r.Pass? <==> isKind
  {
    if isKind then Pass
    else if d.Empty? then Fail(AccountNotInitialized)
    else Fail(AccountDiscriminatorMismatch)
  }

  /** `init_if_needed`: creates `zero` at `k` when nothing is there, keeps a
      record of the right kind, and rejects one of another kind. */
  function InitIfNeeded(s: Accounts, k: Pubkey, zero: Data, sameKind: bool): (r: Result<Accounts>)
    ensures r.Success? <==> DataAt(s, k).Empty? || sameKind
    ensures r.Success? && DataAt(s, k).Empty? ==> r.value == Put(s, k, zero)
    ensures r.Success? && !DataAt(s, k).Empty? ==> r.value == s
  {
    if DataAt(s, k).Empty? then Success(Put(s, k, zero))
    else if sameKind then Success(s)
    else Failure(AccountDiscriminatorMismatch)
  }

  /** `init`: creates `zero` at `k`; an account already holding a record
      cannot be created again. */
  function Init(s: Accounts, k: Pubkey, zero: Data): (r: Result<Accounts>)
    ensures r.Success? <==> DataAt(s, k).Empty?
    ensures r.Success? ==> r.value == Put(s, k, zero)
    ensures r.Failure? ==> r.error == AccountAlreadyInUse
  {
    if DataAt(s, k).Empty? then Success(Put(s, k, zero)) else Failure(AccountAlreadyInUse)
  }

  /** The store a transaction runs against. A handler snapshots `accounts`
      before its first step and puts the snapshot back when a step fails. */
  class Store {
    var accounts: Accounts

    constructor (initial: Accounts)
      ensures accounts == initial
    {
      accounts := initial;
    }

    /** Replaces the record at `k`, keeping its balance. */
    method Write(k: Pubkey, d: Data)
      modifies this
      ensures accounts == Put(old(accounts), k, d)
    {
      accounts := accounts[k := Account(Lamports(accounts, k), d)];
    }

    /** The system program's `transfer`, run against this store. */
    method Transfer(from: Pubkey, to: Pubkey, amount: nat) returns (r: Outcome)
      modifies this
      ensures r.Pass? <==> TransferLamports(old(accounts), from, to, amount).Success?
      ensures r.Pass? ==> accounts == TransferLamports(old(accounts), from, to, amount).value
      ensures r.Fail? ==> accounts == old(accounts) && r.error == InsufficientFunds
    {
      var balance := Lamports(accounts, from);
      if balance < amount {
        return Fail(InsufficientFunds);
      }
      accounts := accounts[from := Account(balance - amount, DataAt(accounts, from))];
      accounts := accounts[to := Account(Lamports(accounts, to) + amount, DataAt(accounts, to))];
      r := Pass;
    }

    /** Discards every change since `snapshot` was taken. */
    method Abort(snapshot: Accounts)
      modifies this
      ensures accounts == snapshot
    {
      accounts := snapshot;
    }
  }
}
