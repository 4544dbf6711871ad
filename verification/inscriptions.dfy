/** `make_inscription_immutable` of the inscriptions program: the inscription's
    authority signs once more, the authority is handed to the system program
    (which nobody can sign for), and the global inscription summary counts one
    more immutable inscription. */
module InscriptionsProgram {
  import opened Chain
  import opened Ledger

  /** The accounts of `MakeInscriptionImmutable`, in declaration order. */
  datatype MakeInscriptionImmutableAccounts = MakeInscriptionImmutableAccounts(
    payer: Pubkey,
    authority: Pubkey,
    inscriptionSummary: Pubkey,
    inscription: Pubkey,
    systemProgram: Pubkey)

  /** The one summary record of the program, at seeds ["inscription_summary"]. */
  function SummaryAddress(ids: ProgramIds): (r: Pubkey)
    ensures VerifyDerivation(r, ids.inscriptions, [Bytes("inscription_summary")])
  {
    Derive(ids.inscriptions, [Bytes("inscription_summary")])
  }

  /** The count of immutable inscriptions the store records (zero before the
      summary exists). */
  function ImmutableCount(ids: ProgramIds, s: Accounts): nat
  {
    var d := DataAt(s, SummaryAddress(ids));
    if d.SummaryData? then d.summary.inscriptionCountImmutables else 0
  }

  /** The checks the framework makes while it loads the accounts, before any
      account is created: two signatures, an inscription record, the system
      program. */
  function LoadAccounts(s: Accounts, ix: MakeInscriptionImmutableAccounts, signers: set<Pubkey>): (r: Outcome)
    ensures r.Pass? <==>
      && ix.payer in signers && ix.authority in signers
      && DataAt(s, ix.inscription).InscriptionData?
      && ix.systemProgram == SystemProgramId
  {
    var d := DataAt(s, ix.inscription);
    if ix.payer !in signers || ix.authority !in signers then Fail(AccountNotSigner)
    else if !d.InscriptionData? then CheckKind(d, false)
    else RequireProgram(ix.systemProgram, SystemProgramId)
  }

  /** The whole transaction: account checks, `init_if_needed` of the summary,
      the `inscription.authority == authority.key()` constraint, then the
      handler's writes. */
  function MakeInscriptionImmutableTx(
    ids: ProgramIds, s: Accounts, ix: MakeInscriptionImmutableAccounts, signers: set<Pubkey>, now: int)
    : (r: Result<Accounts>)
    // it goes through exactly when the accounts load, the summary is (or can
    // be created) at its address, and the signing authority is the inscription's
    ensures r.Success? <==>
      && LoadAccounts(s, ix, signers).Pass?
      && ix.inscriptionSummary == SummaryAddress(ids)
      && (DataAt(s, ix.inscriptionSummary).Empty? || DataAt(s, ix.inscriptionSummary).SummaryData?)
      && DataAt(s, ix.inscription).inscription.authority == ix.authority
    ensures r.Success? ==> ix.inscriptionSummary != ix.inscription
  {
    var loaded := LoadAccounts(s, ix, signers);
    if loaded.Fail? then Failure(loaded.error)
    else if ix.inscriptionSummary != SummaryAddress(ids) then Failure(ConstraintSeeds)
    else
      var created := InitIfNeeded(s, ix.inscriptionSummary, SummaryData(ZeroSummary),
                                  DataAt(s, ix.inscriptionSummary).SummaryData?);
      if created.Failure? then Failure(created.error)
      else
        var s1 := created.value;
        var inscription := DataAt(s1, ix.inscription).inscription;
        if inscription.authority != ix.authority then Failure(ConstraintRaw)
        else
          var summary := DataAt(s1, ix.inscriptionSummary).summary;
          var summary' := summary.(
            inscriptionCountImmutables := summary.inscriptionCountImmutables + 1,
            lastInscriptionCreateTime := now,
            lastInscription := ix.inscription,
            lastInscriber := ix.payer);
          var s2 := Put(s1, ix.inscription, InscriptionData(inscription.(authority := SystemProgramId)));
          Success(Put(s2, ix.inscriptionSummary, SummaryData(summary')))
  }

  /** A successful call changes exactly two records: the inscription's
      authority becomes the system program id with every other field kept, and
      the summary (zero-initialised if it was missing) counts one more
      immutable inscription, made at `now` by the payer. */
  lemma MakeImmutableEffect(
    ids: ProgramIds, s: Accounts, ix: MakeInscriptionImmutableAccounts, signers: set<Pubkey>, now: int)
    requires MakeInscriptionImmutableTx(ids, s, ix, signers, now).Success?
    ensures var s' := MakeInscriptionImmutableTx(ids, s, ix, signers, now).value;
      && DataAt(s', ix.inscription)
         == InscriptionData(DataAt(s, ix.inscription).inscription.(authority := SystemProgramId))
      && DataAt(s', ix.inscriptionSummary).SummaryData?
      && DataAt(s', ix.inscriptionSummary).summary == InscriptionSummary(
           ImmutableCount(ids, s) + 1, ix.inscription, ix.payer, now)
      && ImmutableCount(ids, s') == ImmutableCount(ids, s) + 1
      && (forall k :: k != ix.inscription && k != ix.inscriptionSummary ==> DataAt(s', k) == DataAt(s, k))
      && (forall k :: Lamports(s', k) == Lamports(s, k))
  {
  }

  /** The first call zero-initialises the summary, so it then records one
      immutable inscription. */
  lemma FirstSummaryCountsOne(
    ids: ProgramIds, s: Accounts, ix: MakeInscriptionImmutableAccounts, signers: set<Pubkey>, now: int)
    requires DataAt(s, SummaryAddress(ids)).Empty?
    requires MakeInscriptionImmutableTx(ids, s, ix, signers, now).Success?
    ensures ImmutableCount(ids, MakeInscriptionImmutableTx(ids, s, ix, signers, now).value) == 1
  {
    MakeImmutableEffect(ids, s, ix, signers, now);
  }

  /** Once an inscription's authority is the system program id, a call on it
      fails unless the system program id itself is given as the authority. */
  lemma ImmutableIsTerminal(
    ids: ProgramIds, s: Accounts, ix: MakeInscriptionImmutableAccounts, signers: set<Pubkey>, now: int)
    requires DataAt(s, ix.inscription).InscriptionData?
    requires DataAt(s, ix.inscription).inscription.authority == SystemProgramId
    requires ix.authority != SystemProgramId
    ensures MakeInscriptionImmutableTx(ids, s, ix, signers, now).Failure?
    ensures LoadAccounts(s, ix, signers).Pass? && ix.inscriptionSummary == SummaryAddress(ids) &&
            (DataAt(s, ix.inscriptionSummary).Empty? || DataAt(s, ix.inscriptionSummary).SummaryData?)
            ==> MakeInscriptionImmutableTx(ids, s, ix, signers, now) == Failure(ConstraintRaw)
  {
  }

  /** One attempt of a run: its accounts, its signers and its clock. */
  datatype Attempt = Attempt(ix: MakeInscriptionImmutableAccounts, signers: set<Pubkey>, now: int)

  /** A sequence of separate transactions: each commits all of its writes or
      none. */
  function Run(ids: ProgramIds, s: Accounts, attempts: seq<Attempt>): Accounts
    decreases |attempts|
  {
    if attempts == [] then s
    else
      var a := attempts[0];
      var r := MakeInscriptionImmutableTx(ids, s, a.ix, a.signers, a.now);
      Run(ids, if r.Success? then r.value else s, attempts[1..])
  }

  /** How many attempts of a run succeed. */
  function Successes(ids: ProgramIds, s: Accounts, attempts: seq<Attempt>): nat
    decreases |attempts|
  {
    if attempts == [] then 0
    else
      var a := attempts[0];
      var r := MakeInscriptionImmutableTx(ids, s, a.ix, a.signers, a.now);
      (if r.Success? then 1 else 0) + Successes(ids, if r.Success? then r.value else s, attempts[1..])
  }

  /** Over any run, the summary's count grows by exactly the number of
      successful attempts: it never decreases and never skips. */
  lemma {:induction false} RunCountsSuccesses(ids: ProgramIds, s: Accounts, attempts: seq<Attempt>)
    ensures ImmutableCount(ids, Run(ids, s, attempts)) == ImmutableCount(ids, s) + Successes(ids, s, attempts)
    decreases |attempts|
  {
    if attempts != [] {
      var a := attempts[0];
      var r := MakeInscriptionImmutableTx(ids, s, a.ix, a.signers, a.now);
      if r.Success? {
        MakeImmutableEffect(ids, s, a.ix, a.signers, a.now);
      }
      RunCountsSuccesses(ids, if r.Success? then r.value else s, attempts[1..]);
    }
  }

  /** Over any run in which nobody presents the system program id as the
      authority, an immutable inscription stays immutable and keeps its
      content. */
  lemma {:induction false} RunKeepsImmutable(ids: ProgramIds, s: Accounts, attempts: seq<Attempt>, k: Pubkey)
    requires DataAt(s, k).InscriptionData? && DataAt(s, k).inscription.authority == SystemProgramId
    requires forall i :: 0 <= i < |attempts| ==> attempts[i].ix.authority != SystemProgramId
    ensures DataAt(Run(ids, s, attempts), k) == DataAt(s, k)
    decreases |attempts|
  {
    if attempts != [] {
      var a := attempts[0];
      var r := MakeInscriptionImmutableTx(ids, s, a.ix, a.signers, a.now);
      if r.Success? {
        MakeImmutableEffect(ids, s, a.ix, a.signers, a.now);
        assert a.ix.inscription != k;
      }
      RunKeepsImmutable(ids, if r.Success? then r.value else s, attempts[1..], k);
    }
  }

  /** The handler as it runs against the store: the framework's checks, the
      creation of the summary when it is missing, the authority constraint,
      then the field writes; a failing check puts the store back. */
  method MakeInscriptionImmutable(
    store: Store, ids: ProgramIds, ix: MakeInscriptionImmutableAccounts, signers: set<Pubkey>, now: int)
    returns (r: Outcome)
    modifies store
    ensures r.Pass? ==> MakeInscriptionImmutableTx(ids, old(store.accounts), ix, signers, now)
                        == Success(store.accounts)
    ensures r.Fail? ==> MakeInscriptionImmutableTx(ids, old(store.accounts), ix, signers, now)
                        == Failure(r.error)
    ensures r.Fail? ==> store.accounts == old(store.accounts)
  {
    var snapshot := store.accounts;
    var loaded := LoadAccounts(store.accounts, ix, signers);
    if loaded.Fail? {
      return loaded;
    }
    if ix.inscriptionSummary != SummaryAddress(ids) {
      return Fail(ConstraintSeeds);
    }
    var existing := DataAt(store.accounts, ix.inscriptionSummary);
    if existing.Empty? {
      store.Write(ix.inscriptionSummary, SummaryData(ZeroSummary));
    } else if !existing.SummaryData? {
      return Fail(AccountDiscriminatorMismatch);
    }

    var inscription := DataAt(store.accounts, ix.inscription).inscription;
    if inscription.authority != ix.authority {
      store.Abort(snapshot);
      return Fail(ConstraintRaw);
    }

    // the handler
    inscription := inscription.(authority := SystemProgramId);
    var summary := DataAt(store.accounts, ix.inscriptionSummary).summary;
    summary := summary.(inscriptionCountImmutables := summary.inscriptionCountImmutables + 1);
    summary := summary.(lastInscriptionCreateTime := now);
    summary := summary.(lastInscription := ix.inscription);
    summary := summary.(lastInscriber := ix.payer);
    store.Write(ix.inscription, InscriptionData(inscription));
    store.Write(ix.inscriptionSummary, SummaryData(summary));
    r := Pass;
  }
}
