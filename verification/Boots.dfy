/**
 Which worker boots are admitted over a run. Each boot is meant to name one incarnation for good, but
 the register remembers only the latest one.
 */
module Boots {
  import opened Words
  import opened Types
  import opened Records
  import opened Operations

  /** Every guard of a worker registration but the comparison with the remembered boot. */
  predicate MayRegister(s: State, w: WorkerId, boot: BootId, epoch: Epoch, a: Authority) {
    && w != NULL && boot != NULL && a.epoch == s.epoch && epoch == s.epoch
    && (a.worker == NULL || (a.worker == w && a.boot == boot))
  }

  predicate Offers(s: State, op: Op, w: WorkerId) {
    op.OpRegisterWorker? && op.w == w && MayRegister(s, w, op.boot, op.epoch, op.a)
  }

  predicate Admits(s: State, op: Op, w: WorkerId) {
    op.OpRegisterWorker? && op.w == w && RegisterWorker(s, w, op.boot, op.epoch, op.pid, op.a).error == NoError
  }

  /** The boots admitted to a worker over a run, in order. */
  ghost function Admissions(s: State, ops: seq<Op>, w: WorkerId): seq<BootId>
    decreases |ops|
  {
    if ops == [] then []
    else (if Admits(s, ops[0], w) then [ops[0].boot] else []) + Admissions(Apply(s, ops[0]).state, ops[1..], w)
  }

  lemma AdmitsIff(s: State, op: Op, w: WorkerId)
    ensures Admits(s, op, w) <==> Offers(s, op, w) && (w in s.workers ==> s.workers[w].boot != op.boot)
  {
  }

  // ---- The remembered boot is the last one admitted ----

  predicate SameBoot(s: State, t: State, w: WorkerId) {
    (w in t.workers <==> w in s.workers) && (w in s.workers ==> t.workers[w].boot == s.workers[w].boot)
  }

  lemma SetEpochKeepsBoot(s: State, e: Epoch, w: WorkerId)
    ensures SameBoot(s, SetEpoch(s, e), w)
  {
    hide Settle, SuspendAll, WithdrawAll;
    assert e > s.epoch ==> SetEpoch(s, e).workers == Dismiss(s.workers);
  }

  lemma MarkWorkerDeadKeepsBoot(s: State, x: WorkerId, a: Authority, w: WorkerId)
    ensures SameBoot(s, MarkWorkerDead(s, x, a).state, w)
  {
    hide Settle, SuspendAll, WithdrawAll, Acceptable;
  }

  lemma NoteWorkerHandleKeepsBoot(s: State, x: WorkerId, holds: bool, w: WorkerId)
    ensures SameBoot(s, NoteWorkerHandle(s, x, holds), w)
  {
  }

  lemma RegisterWorkerBoot(s: State, x: WorkerId, b: BootId, e: Epoch, pid: U64, a: Authority, w: WorkerId)
    ensures var step := RegisterWorker(s, x, b, e, pid, a);
            if x == w && step.error == NoError then w in step.state.workers && step.state.workers[w].boot == b
            else SameBoot(s, step.state, w)
  {
  }

  lemma WorkerStepBoot(s: State, op: Op, w: WorkerId)
    requires TouchesWorkers(op)
    ensures var t := Apply(s, op).state;
            if Admits(s, op, w) then w in t.workers && t.workers[w].boot == op.boot else SameBoot(s, t, w)
  {
    hide SetEpoch, RegisterConsumer, RegisterProvider, RegisterDomain, RegisterRegion, RegisterPool, RegisterPolicy;
    hide AddPoolMember, RemovePoolMember, PublishEvidence, PublishAttachment, BeginDrain, CompleteDrain, CancelDrain;
    hide MarkUnavailable, RecoverRegion, RetireProvider, RetireRegion, RegisterWorker, MarkWorkerDead, NoteWorkerHandle;
    hide Select, Reserve, Commit, Release;
    match op
    case OpSetEpoch(e) => SetEpochKeepsBoot(s, e, w);
    case OpMarkWorkerDead(x, a) => MarkWorkerDeadKeepsBoot(s, x, a, w);
    case OpNoteWorkerHandle(x, holds) => NoteWorkerHandleKeepsBoot(s, x, holds, w);
    case OpRegisterWorker(x, b, e, pid, a) => RegisterWorkerBoot(s, x, b, e, pid, a, w);
  }

  lemma BootAfterStep(s: State, op: Op, w: WorkerId)
    ensures var t := Apply(s, op).state;
            if Admits(s, op, w) then w in t.workers && t.workers[w].boot == op.boot else SameBoot(s, t, w)
  {
    hide Apply;
    if TouchesWorkers(op) { WorkerStepBoot(s, op, w); }
  }

  lemma {:induction false} LatestBoot(s: State, ops: seq<Op>, w: WorkerId)
    ensures var t := Run(s, ops);
            var boots := Admissions(s, ops, w);
            if boots == [] then SameBoot(s, t, w) else w in t.workers && t.workers[w].boot == boots[|boots| - 1]
    decreases |ops|
  {
    hide Apply, Admits;
    if ops != [] {
      BootAfterStep(s, ops[0], w);
      LatestBoot(Apply(s, ops[0]).state, ops[1..], w);
    }
  }

  /**
   In every run of a new coordinator a registration under otherwise valid guards is refused exactly
   when its boot is the last one admitted: any boot admitted before that one is admitted again.
   */
  lemma AdmittedAgainIff(e: Epoch, ops: seq<Op>, w: WorkerId, boot: BootId, epoch: Epoch, pid: U64, a: Authority)
    requires MayRegister(Run(Initial(e), ops), w, boot, epoch, a)
    ensures var s := Run(Initial(e), ops);
            var boots := Admissions(Initial(e), ops, w);
            && (boot in boots ==> w in s.workers)
            && (RegisterWorker(s, w, boot, epoch, pid, a).error == NoError <==> boots == [] || boot != boots[|boots| - 1])
            && (boot in boots ==>
                  (RegisterWorker(s, w, boot, epoch, pid, a).error == NoError <==> boot != s.workers[w].boot))
  {
    LatestBoot(Initial(e), ops, w);
    hide Run, Admissions;
  }

  // ---- Exactly which sequences of boots can be admitted ----

  predicate NoImmediateRepeat(boots: seq<BootId>) { forall i :: 0 <= i < |boots| - 1 ==> boots[i] != boots[i + 1] }

  predicate NoRepeat(boots: seq<BootId>) { forall i, j :: 0 <= i < j < |boots| ==> boots[i] != boots[j] }

  lemma {:induction false} AdmissionsDiffer(s: State, ops: seq<Op>, w: WorkerId)
    ensures var boots := Admissions(s, ops, w);
            && NoImmediateRepeat(boots) && NULL !in boots
            && (boots != [] && w in s.workers ==> boots[0] != s.workers[w].boot)
    decreases |ops|
  {
    hide Apply, Admits;
    if ops != [] {
      var t := Apply(s, ops[0]).state;
      var rest := Admissions(t, ops[1..], w);
      BootAfterStep(s, ops[0], w);
      AdmitsIff(s, ops[0], w);
      AdmissionsDiffer(t, ops[1..], w);
      if Admits(s, ops[0], w) {
        var boots := [ops[0].boot] + rest;
        forall i | 0 <= i < |boots| - 1 ensures boots[i] != boots[i + 1] {
          if i > 0 { assert rest[i - 1] != rest[i]; }
        }
      }
    }
  }

  function Registrations(e: Epoch, w: WorkerId, boots: seq<BootId>): seq<Op> {
    seq(|boots|, i requires 0 <= i < |boots| => OpRegisterWorker(w, boots[i], e, 0, Authority(e, NULL, NULL)))
  }

  lemma RegistrationKeepsEpoch(s: State, w: WorkerId, boot: BootId, pid: U64, a: Authority)
    ensures Apply(s, OpRegisterWorker(w, boot, s.epoch, pid, a)).state.epoch == s.epoch
  {
    hide SetEpoch, RegisterConsumer, RegisterProvider, RegisterDomain, RegisterRegion, RegisterPool, RegisterPolicy;
    hide AddPoolMember, RemovePoolMember, PublishEvidence, PublishAttachment, BeginDrain, CompleteDrain, CancelDrain;
    hide MarkUnavailable, RecoverRegion, RetireProvider, RetireRegion, MarkWorkerDead, NoteWorkerHandle;
    hide Select, Reserve, Commit, Release;
  }

  lemma {:induction false} RegistrationsAdmitted(s: State, w: WorkerId, boots: seq<BootId>)
    requires w != NULL && NULL !in boots && NoImmediateRepeat(boots)
    requires boots != [] && w in s.workers ==> boots[0] != s.workers[w].boot
    ensures Admissions(s, Registrations(s.epoch, w, boots), w) == boots
    decreases |boots|
  {
    hide Apply, Admits;
    if boots != [] {
      var ops := Registrations(s.epoch, w, boots);
      var t := Apply(s, ops[0]).state;
      assert ops[1..] == Registrations(s.epoch, w, boots[1..]);
      assert boots[0] in boots && forall b :: b in boots[1..] ==> b in boots;
      assert NoImmediateRepeat(boots[1..]) by {
        forall i | 0 <= i < |boots[1..]| - 1 ensures boots[1..][i] != boots[1..][i + 1] { assert boots[i + 1] != boots[i + 2]; }
      }
      AdmitsIff(s, ops[0], w);
      BootAfterStep(s, ops[0], w);
      RegistrationKeepsEpoch(s, w, boots[0], 0, Authority(s.epoch, NULL, NULL));
      if |boots| > 1 { assert boots[0] != boots[1]; }
      RegistrationsAdmitted(t, w, boots[1..]);
      assert [boots[0]] + boots[1..] == boots;
    }
  }

  /** The boots a worker can be admitted with are exactly the sequences of real boots without an immediate repetition. */
  lemma AdmissibleIff(e: Epoch, w: WorkerId, boots: seq<BootId>)
    requires w != NULL
    ensures (exists ops :: Admissions(Initial(e), ops, w) == boots) <==> NULL !in boots && NoImmediateRepeat(boots)
  {
    hide Apply, Admits;
    if ops :| Admissions(Initial(e), ops, w) == boots { AdmissionsDiffer(Initial(e), ops, w); }
    if NULL !in boots && NoImmediateRepeat(boots) {
      RegistrationsAdmitted(Initial(e), w, boots);
      assert Admissions(Initial(e), Registrations(e, w, boots), w) == boots;
    }
  }

  // ---- When the rule holds over a whole run ----

  /** At some step a caller with valid guards offers a boot admitted earlier and since replaced. */
  ghost predicate Replays(s: State, ops: seq<Op>, w: WorkerId, seen: set<BootId>)
    decreases |ops|
  {
    && ops != []
    && (|| (Offers(s, ops[0], w) && ops[0].boot in seen && (w in s.workers ==> s.workers[w].boot != ops[0].boot))
        || Replays(Apply(s, ops[0]).state, ops[1..], w, if Admits(s, ops[0], w) then seen + {ops[0].boot} else seen))
  }

  predicate Avoids(boots: seq<BootId>, seen: set<BootId>) { forall b :: b in boots ==> b !in seen }

  lemma FirstThenRest(b: BootId, rest: seq<BootId>, seen: set<BootId>)
    ensures NoRepeat([b] + rest) && Avoids([b] + rest, seen) <==> b !in seen && NoRepeat(rest) && Avoids(rest, seen + {b})
  {
    var all := [b] + rest;
    assert forall x :: x in all <==> x == b || x in rest;
    if NoRepeat(all) {
      forall x | x in rest ensures x != b {
        var j :| 0 <= j < |rest| && rest[j] == x;
        assert all[0] != all[j + 1];
      }
      forall i, j | 0 <= i < j < |rest| ensures rest[i] != rest[j] { assert all[i + 1] != all[j + 1]; }
    }
    if NoRepeat(rest) && Avoids(rest, seen + {b}) {
      forall i, j | 0 <= i < j < |all| ensures all[i] != all[j] {
        assert rest[j - 1] in rest;
        if i > 0 { assert rest[i - 1] != rest[j - 1]; }
      }
    }
  }

  lemma {:induction false} NoReplayIff(s: State, ops: seq<Op>, w: WorkerId, seen: set<BootId>)
    ensures NoRepeat(Admissions(s, ops, w)) && Avoids(Admissions(s, ops, w), seen) <==> !Replays(s, ops, w, seen)
    decreases |ops|
  {
    hide Apply, Admits, NoRepeat, Avoids;
    if ops == [] {
      NothingRepeats(seen);
    } else {
      var t := Apply(s, ops[0]).state;
      AdmitsIff(s, ops[0], w);
      if Admits(s, ops[0], w) {
        NoReplayIff(t, ops[1..], w, seen + {ops[0].boot});
        FirstThenRest(ops[0].boot, Admissions(t, ops[1..], w), seen);
      } else {
        NoReplayIff(t, ops[1..], w, seen);
        assert [] + Admissions(t, ops[1..], w) == Admissions(t, ops[1..], w);
      }
    }
  }

  lemma NothingRepeats(seen: set<BootId>)
    ensures NoRepeat([]) && Avoids([], seen)
  {
  }

  /** No boot is admitted twice in a run exactly when no caller with valid guards replays one that was admitted and replaced. */
  lemma BootsUniqueIff(e: Epoch, ops: seq<Op>, w: WorkerId)
    ensures NoRepeat(Admissions(Initial(e), ops, w)) <==> !Replays(Initial(e), ops, w, {})
  {
    NoReplayIff(Initial(e), ops, w, {});
    hide Admissions, Replays;
  }

  // ---- The rule fails ----

  /** Boots 1, 2 and 1 again are all admitted to a worker of a new coordinator: the replaced boot is its boot again. */
  lemma EarlierBootReadmitted(w: WorkerId) returns (ops: seq<Op>)
    requires w != NULL
    ensures |ops| == 3 && Admissions(Initial(1), ops, w) == [1, 2, 1]
    ensures w in Run(Initial(1), ops).workers && Run(Initial(1), ops).workers[w].boot == 1
  {
    hide Apply, Admits;
    ops := Registrations(1, w, [1, 2, 1]);
    RegistrationsAdmitted(Initial(1), w, [1, 2, 1]);
    LatestBoot(Initial(1), ops, w);
  }

  /** Alive or dead, a worker whose latest boot is not the offered one takes it and its authority is acceptable. */
  lemma ReadmittedActs(s: State, w: WorkerId, boot: BootId, epoch: Epoch, pid: U64, a: Authority)
    requires MayRegister(s, w, boot, epoch, a) && (w in s.workers ==> s.workers[w].boot != boot)
    ensures Acceptable(RegisterWorker(s, w, boot, epoch, pid, a).state, Authority(s.epoch, w, boot))
  {
  }
}
