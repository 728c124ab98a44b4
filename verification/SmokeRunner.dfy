/** The runner as an object: memory, journal and network, updated one effect after the other. */
module SmokeRunner {
  import opened Basics
  import opened Registry
  import opened SmokeRun

  class Runner {
    const p: Policy
    const k: Suite
    var journal: seq<Snapshot>
    var open: bool
    var state: Option<Snapshot>
    var poisoned: bool
    var sent: seq<seq<Byte>>

    constructor (p: Policy, k: Suite)
      ensures this.p == p && this.k == k && Now() == UNOPENED
    {
      this.p, this.k := p, k;
      journal, open, state, poisoned, sent := [], false, None, false, [];
    }

    ghost function Now(): World
      reads this
    {
      World(journal, if open then Some(Memory(state, poisoned)) else None, sent)
    }

    /** Validate, append, and only then believe the new snapshot. */
    method WriteSnapshot(v: Snapshot, fate: Fate) returns (ok: bool)
      requires open && !poisoned
      modifies this
      ensures (Now(), ok) == Write(p, k, old(Now()), v, fate)
    {
      hide SnapshotValid;
      var valid := CheckSnapshot(p, k, v);
      if !valid {
        return false;
      }
      match fate {
        case Stored =>
          journal := journal + [v];
          state := Some(v);
          ok := true;
        case NotStored =>
          poisoned := true;
          ok := false;
        case StoredUnacknowledged =>
          journal := journal + [v];
          poisoned := true;
          ok := false;
        case Crashed(stored) =>
          if stored {
            journal := journal + [v];
          }
          open := false;
          ok := false;
      }
    }

    method Reopen()
      modifies this
      ensures Now() == DoReopen(p, k, old(Now()))
    {
      if journal == [] {
        open, state, poisoned := true, None, false;
        return;
      }
      var valid := CheckSnapshot(p, k, journal[|journal| - 1]);
      if valid {
        open, state, poisoned := true, Some(journal[|journal| - 1]), false;
      } else {
        open := false;
      }
    }

    method Initialize(config: Config, payer: Key, x: Reads)
      modifies this
      ensures Now() == DoInitialize(p, k, old(Now()), config, payer, x)
    {
      if !open || poisoned || state.Some? {
        return;
      }
      var _ := WriteSnapshot(
        Snapshot(Initialized, config, payer, true, None, None, None, None, None, None, None, None, None), x.first);
    }

    method Prepare(x: Reads)
      modifies this
      ensures Now() == DoPrepare(p, k, old(Now()), x)
    {
      if !open || poisoned || state.None? || !Refreshable(state.value.stage) {
        return;
      }
      // The first of the two writes of SmokeRun.DoPrepare.
      var s := state.value.(stage := Initialized, candidate := None, userSigned := None, sponsorSigned := None);
      var cleared := WriteSnapshot(s, x.first);
      if cleared && x.quote.Some? {
        var _ := WriteSnapshot(
          s.(stage := Stage.Prepared, candidate := Some(Candidate(x.candidateId, x.quote.value, x.slot, x.height))), x.second);
      }
    }

    method AcceptSignature(role: Role, id: nat, packet: seq<Byte>, x: Reads)
      modifies this
      ensures Now() == DoAccept(p, k, old(Now()), role, id, packet, x)
    {
      if !open || poisoned || state.None? {
        return;
      }
      var s := state.value;
      if !SigningStage(role, s.stage) || s.candidate.None? || s.candidate.value.id != id
         || !k.single(s.candidate.value.quote, packet, RoleKey(s.candidate.value.quote, role)) {
        return;
      }
      var valid := CheckQuote(p, s, x.now);
      if !valid || !x.recheck {
        return;
      }
      if role.User? {
        var _ := WriteSnapshot(s.(stage := UserSigned, userSigned := Some(packet)), x.first);
      } else {
        var _ := WriteSnapshot(s.(stage := WalletsSigned, sponsorSigned := Some(packet)), x.first);
      }
    }

    method Submit(x: Reads)
      modifies this
      ensures Now() == DoSubmit(p, k, old(Now()), x)
    {
      hide Write, QuoteValid, SnapshotValid, SmokeRun.Authorize, CoSign, Broadcast, PacketsValid;
      if !open || poisoned || state.None? {
        return;
      }
      var s := state.value;
      // Broadcasting and later stages are not Sendable.
      if !x.allowLive || !Acknowledged(s, x) || !Sendable(s.stage) {
        return;
      }
      var valid := CheckQuote(p, s, x.now);
      if !valid || !x.recheck || !PacketsValid(k, s) {
        if !s.stage.WalletsSigned? && x.expired {
          var _ := WriteSnapshot(s.(stage := ManualReview, reason := Some(Expired)), x.first);
        }
        return;
      }
      AuthorizeAndSend(s, x);
    }

    method AuthorizeAndSend(s: Snapshot, x: Reads)
      requires open && !poisoned
      modifies this
      ensures Now() == SmokeRun.Authorize(p, k, old(Now()), s, x)
    {
      hide Write, CoSign, SnapshotValid;
      if s.stage.WalletsSigned? {
        var a := s.(stage := Stage.Authorized, authorizedAt := Some(x.now));
        var ok := WriteSnapshot(a, x.first);
        if ok {
          CoSignAndSend(a, x);
        }
      } else {
        CoSignAndSend(s, x);
      }
    }

    method CoSignAndSend(s: Snapshot, x: Reads)
      requires open && !poisoned
      modifies this
      ensures Now() == CoSign(p, k, old(Now()), s, x)
    {
      hide Write, Broadcast, SnapshotValid;
      if !s.stage.Authorized? {
        BroadcastOnce(s, x);
        return;
      }
      if s.userSigned.None? || s.sponsorSigned.None? {
        return;
      }
      var joined := k.join(s.userSigned.value, s.sponsorSigned.value, s.payer);
      if joined.None? {
        return;
      }
      var c := s.(stage := Signed, signed := joined, signature := Some(k.signatureOf(joined.value)));
      var ok := WriteSnapshot(c, x.second);
      if ok {
        BroadcastOnce(c, x);
      }
    }

    method BroadcastOnce(s: Snapshot, x: Reads)
      requires open && !poisoned
      modifies this
      ensures Now() == Broadcast(p, k, old(Now()), s, x)
    {
      hide SnapshotValid;
      var b := s.(stage := Broadcasting);
      var ok := WriteSnapshot(b, x.third);
      if !ok || s.signed.None? {
        return;
      }
      // The object dies between the write and the send.
      if x.crashBeforeSend {
        open := false;
        return;
      }
      sent := sent + [s.signed.value];
      if x.crashAfterSend {
        open := false;
        return;
      }
      var stage := if x.sendResult.Some? && x.sendResult == s.signature then Submitted else BroadcastUnknown;
      var _ := WriteSnapshot(b.(stage := stage), x.last);
    }

    method Reconcile(x: Reads)
      modifies this
      ensures Now() == DoReconcile(p, k, old(Now()), x)
    {
      hide SnapshotValid, SmokeRun.Reconciled;
      if !open || poisoned || state.None? {
        return;
      }
      var s := state.value;
      if Settledness(s.stage) || !ObservedStage(s.stage) || s.signed.None? || s.signature.None? || s.candidate.None? {
        return;
      }
      if x.observation.None? {
        if !x.unavailable {
          var _ := WriteSnapshot(Review(s, Invalid), x.last);
        }
        return;
      }
      var next := SmokeRun.Reconciled(p, s, s.candidate.value, s.signed.value, x.observation.value);
      var valid := CheckSnapshot(p, k, next);
      if valid {
        var _ := WriteSnapshot(next, x.first);
      } else {
        var _ := WriteSnapshot(Review(s, Invalid), x.last);
      }
    }
  }
}
