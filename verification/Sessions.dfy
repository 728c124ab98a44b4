/** Never more than five unrevoked sessions per invite, whoever exchanges, revokes or rotates. */
module Sessions {
  import opened Registry
  import opened Quotes
  import opened Database
  import opened CampaignTx
  import opened ExecutionTx
  import opened Steps

  ghost predicate AtMostFive(sessions: seq<Session>) {
    forall i: Id :: LiveSessions(sessions, i) <= 5
  }

  lemma {:induction false} RevokedFewer(sessions: seq<Session>, id: Id, i: Id)
    ensures LiveSessions(RevokeSessions(sessions, id), i) == if i == id then 0 else LiveSessions(sessions, i)
  {
    if sessions != [] {
      var n := |sessions| - 1;
      RevokedFewer(sessions[..n], id, i);
      assert RevokeSessions(sessions, id)[..n] == RevokeSessions(sessions[..n], id);
    }
  }

  lemma {:induction false} KeptFew(sessions: seq<Session>, id: Id, keep: nat, i: Id)
    ensures LiveSessions(KeepNewest(sessions, id, keep), i)
         == if i == id then (if LiveSessions(sessions, id) < keep then LiveSessions(sessions, id) else keep) else LiveSessions(sessions, i)
  {
    if sessions != [] {
      var n := |sessions| - 1;
      var last := sessions[n];
      var kept := if last.invite != id || last.revoked then keep else if keep > 0 then keep - 1 else 0;
      KeptFew(sessions[..n], id, kept, i);
      var rest := KeepNewest(sessions[..n], id, kept);
      assert KeepNewest(sessions, id, keep) == rest + [if keep == 0 && last.invite == id && !last.revoked then last.(revoked := true) else last];
      LiveSnoc(rest, KeepNewest(sessions, id, keep)[n], i);
    }
  }

  lemma LiveSnoc(sessions: seq<Session>, s: Session, i: Id)
    ensures LiveSessions(sessions + [s], i) == LiveSessions(sessions, i) + if s.invite == i && !s.revoked then 1 else 0
  {
    assert (sessions + [s])[..|sessions|] == sessions;
  }

  /** The only ways the sessions table changes. */
  predicate SessionChange(ss: seq<Session>, ss': seq<Session>, id: Id, s: Session) {
    ss' == ss || ss' == RevokeSessions(ss, id) || (s.invite == id && ss' == KeepNewest(ss, id, 4) + [s])
  }

  lemma ChangeKeepsFive(ss: seq<Session>, ss': seq<Session>, id: Id, s: Session)
    requires AtMostFive(ss) && SessionChange(ss, ss', id, s)
    ensures AtMostFive(ss')
  {
    hide LiveSessions, KeepNewest, RevokeSessions;
    forall i: Id ensures LiveSessions(ss', i) <= 5 {
      RevokedFewer(ss, id, i);
      KeptFew(ss, id, 4, i);
      LiveSnoc(KeepNewest(ss, id, 4), s, i);
    }
  }

  lemma OtherStepsKeep(p: Policy, db: Db, s: Step, now: int)
    requires ForeignKeys(db) && !s.DoExchangeInvite? && !s.DoRevokeInvite? && !s.DoRotateInvite?
    ensures Apply(p, db, s, now).sessions == db.sessions
  {
    hide ForeignKeys, RevokeInvite, RotateInvite, ExchangeInvite, ValidCampaign, ValidateStoredQuote, ActiveIndexClash, LockSession;
    hide QuoteLive, Authenticated, MayAuthorize, FreshFor, SamePolicy, ValidPreflight, Holds, EvidenceFits, RetryJobs, MayRecover;
    hide SettledAttempt, SettledCampaign, SettledInvite, SettlementEntries, SignatureTaken, InviteTaken, TokenTaken;
  }

  lemma StepKeepsFive(p: Policy, db: Db, s: Step, now: int)
    requires ForeignKeys(db) && AtMostFive(db.sessions)
    ensures AtMostFive(Apply(p, db, s, now).sessions)
  {
    hide ForeignKeys, AtMostFive, Apply, RevokeSessions, KeepNewest, LapseQuotes;
    match s {
      case DoExchangeInvite(token, sessionToken) => ExchangeKeepsFive(p, db, token, sessionToken, now);
      case DoRevokeInvite(id) => RevokeKeepsFive(p, db, id, now);
      case DoRotateInvite(id, expiresAt, token) => RotateKeepsFive(p, db, id, expiresAt, token, now);
      case _ => OtherStepsKeep(p, db, s, now);
    }
  }

  lemma ExchangeKeepsFive(p: Policy, db: Db, token: nat, sessionToken: nat, now: int)
    requires ForeignKeys(db) && AtMostFive(db.sessions)
    ensures AtMostFive(Apply(p, db, DoExchangeInvite(token, sessionToken), now).sessions)
  {
    hide ForeignKeys, AtMostFive, KeepNewest, UsableCampaign, UsableInvite, FindSession, FindInvite, RevokeSessions;
    var r := ExchangeInvite(p, db, token, sessionToken, now);
    if r.Commit? {
      ChangeKeepsFive(db.sessions, r.db.sessions, FindInvite(db.invites, token).value, r.db.sessions[|r.db.sessions| - 1]);
    }
  }

  lemma RevokeKeepsFive(p: Policy, db: Db, id: Id, now: int)
    requires ForeignKeys(db) && AtMostFive(db.sessions)
    ensures AtMostFive(Apply(p, db, DoRevokeInvite(id), now).sessions)
  {
    hide ForeignKeys, AtMostFive, KeepNewest, RevokeSessions;
    ChangeKeepsFive(db.sessions, After(db, RevokeInvite(db, id)).sessions, id, Session(0, 0, 0, true));
  }

  lemma RotateKeepsFive(p: Policy, db: Db, id: Id, expiresAt: int, token: nat, now: int)
    requires ForeignKeys(db) && AtMostFive(db.sessions)
    ensures AtMostFive(Apply(p, db, DoRotateInvite(id, expiresAt, token), now).sessions)
  {
    hide ForeignKeys, AtMostFive, KeepNewest, RevokeSessions, LapseQuotes, TokenTaken;
    ChangeKeepsFive(db.sessions, After(db, RotateInvite(db, id, expiresAt, token, now)).sessions, id, Session(0, 0, 0, true));
  }

  lemma {:induction false} FiveSessionsAtMost(p: Policy, steps: seq<Timed>)
    ensures AtMostFive(Run(p, EMPTY, steps).sessions)
  {
    hide AtMostFive, Apply;
    if steps == [] {
      NoSessions();
    } else {
      var last := steps[|steps| - 1];
      FiveSessionsAtMost(p, steps[..|steps| - 1]);
      StepKeepsFive(p, Run(p, EMPTY, steps[..|steps| - 1]), last.step, last.now);
    }
  }

  lemma NoSessions()
    ensures AtMostFive([])
  {
  }
}
