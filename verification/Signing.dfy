/** Only persistSigned signs: no other transaction puts a signed payload into an operation row. */
module Signing {
  import opened Registry
  import opened Quotes
  import opened Database
  import opened CampaignTx
  import opened ExecutionTx
  import opened Steps

  ghost predicate NoneSigns(ops: seq<Operation>, ops': seq<Operation>) {
    && |ops| <= |ops'|
    && (forall o :: 0 <= o < |ops| && ops'[o].signedPayload.Some? ==> ops'[o].signedPayload == ops[o].signedPayload)
    && (forall o :: |ops| <= o < |ops'| ==> ops'[o].signedPayload.None?)
  }

  predicate KeepsOperations(s: Step) {
    CampaignStep(s) || s.DoClaimJob? || s.DoReschedule? || s.DoRequestRetry?
  }

  lemma OperationsKept(p: Policy, db: Db, s: Step, now: int)
    requires ForeignKeys(db) && KeepsOperations(s)
    ensures Apply(p, db, s, now).operations == db.operations
  {
    hide ForeignKeys, ValidCampaign, UsableCampaign, UsableInvite, ValidateStoredQuote, ActiveIndexClash, LockSession, QuoteLive, Holds;
    hide Authenticated, RetryJobs, Authorize, PersistSigned, Note, ManualReviewTx, Settle, ReserveRecovery, InviteTaken, TokenTaken;
  }

  lemma WorkerSigns(p: Policy, db: Db, s: Step, now: int)
    requires ForeignKeys(db) && (s.DoNote? || s.DoManualReview? || s.DoSettle? || s.DoAuthorize? || s.DoReserveRecovery?)
    ensures NoneSigns(db.operations, Apply(p, db, s, now).operations)
  {
    hide ForeignKeys, CreateCampaign, SetCampaignStatus, IssueInvite, RevokeInvite, RotateInvite, ExchangeInvite, SaveQuote;
    hide ReserveAttempt, ExpireUnsigned, SweepQuotes, ClaimJob, PersistSigned, Reschedule, RequestRetry, Holds, EvidenceFits;
    hide Authenticated, MayAuthorize, FreshFor, SamePolicy, ValidPreflight, MayRecover, SettledAttempt, SettledCampaign, SettledInvite;
  }

  lemma OnlyPersistSigns(p: Policy, db: Db, s: Step, now: int)
    requires ForeignKeys(db) && !s.DoPersistSigned?
    ensures NoneSigns(db.operations, Apply(p, db, s, now).operations)
  {
    hide ForeignKeys, Apply;
    if KeepsOperations(s) {
      OperationsKept(p, db, s, now);
    } else {
      WorkerSigns(p, db, s, now);
    }
  }
}
