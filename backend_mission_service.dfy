/**
 * The older backend's mission service: a participant starts a mission,
 * submits answers and the creator grades the submission, crediting the
 * reward when it is approved; the creator alone edits, deletes and lists the
 * participants of a mission.
 */
module BackendMissionService {
  import opened Wrappers
  import opened BackendEntities
  import opened BackendTables
  import opened BackendUtils
  import opened BackendMissionDto
  import opened BackendDatabase
  import BackendWalletService

  datatype MissionLogResponse = MissionLogResponse(
    id: nat, missionId: nat, missionTitle: string, status: LogStatus, rewardClaimed: bool)

  datatype GradeMissionRequest = GradeMissionRequest(score: real, notes: string, approved: bool)

  /** What a Go handler does: return normally, or panic (the deferred rollback then undoes every write). */
  datatype GoOutcome = Returned(err: Option<ErrorCode>, db: Db) | Panicked

  // ----------------------------------------------------------------- start

  /** The checks StartMission makes: the mission, or the first failure. */
  function StartChecks(db: Db, missionId: nat, userId: nat): (r: Result<Mission, ErrorCode>)
    ensures r.Ok? ==> MissionById(db.missions, missionId) == Some(r.value)
  {
    match MissionById(db.missions, missionId)
    case None => Err(NotFound)
    case Some(m) =>
      if m.creatorId == userId then Err(CannotStartOwn)
      else if !m.isActive then Err(MissionInactive)
      else if LogOf(db.missionLogs, missionId, userId).Some? && !m.isRepeatable then Err(AlreadyParticipated)
      else if m.maxParticipants.Some? && m.currentParticipants >= m.maxParticipants.value then Err(MaxParticipants)
      else Ok(m)
  }

  /** The log CreateLog inserts: STARTED, nothing graded or claimed. */
  function StartedLog(missionId: nat, userId: nat): MissionLog
  {
    MissionLog(0, missionId, userId, Started, None, None, false, None, None, None, None, None, None)
  }

  /** Service.StartMission: the outcome and the database after it. */
  function StartMissionSpec(db: Db, missionId: nat, userId: nat): (Result<MissionLogResponse, ErrorCode>, Db)
  {
    match StartChecks(db, missionId, userId)
    case Err(e) => (Err(e), db)
    case Ok(m) =>
      var logId := NextId(LogIds(db.missionLogs));
      (Ok(MissionLogResponse(logId, missionId, m.title, Started, false)),
       db.(missionLogs := db.missionLogs + [StartedLog(missionId, userId).(id := logId)],
           missions := IncrementParticipantsRows(db.missions, missionId)))
  }

  method StartMission(db: Database, missionId: nat, userId: nat) returns (r: Result<MissionLogResponse, ErrorCode>)
    modifies db
    ensures (r, db.Snapshot()) == StartMissionSpec(old(db.Snapshot()), missionId, userId)
  {
    var mission := db.GetMissionByID(missionId);
    if mission.None? {
      return Err(NotFound);
    }
    var m := mission.value;
    if m.creatorId == userId {
      return Err(CannotStartOwn);
    }
    if !m.isActive {
      return Err(MissionInactive);
    }
    var existing := db.GetLogByMissionAndUser(missionId, userId);
    if existing.Some? && !m.isRepeatable {
      return Err(AlreadyParticipated);
    }
    if m.maxParticipants.Some? && m.currentParticipants >= m.maxParticipants.value {
      return Err(MaxParticipants);
    }
    var logId := db.CreateLog(StartedLog(missionId, userId));
    db.IncrementParticipants(missionId);
    r := Ok(MissionLogResponse(logId, missionId, m.title, Started, false));
  }

  /** Each rejection of StartMission with the condition that decides it, in the order they are checked. */
  lemma {:induction false} StartRejections(db: Db, missionId: nat, userId: nat)
    ensures var r := StartMissionSpec(db, missionId, userId).0;
      var m := MissionById(db.missions, missionId);
      var seen := LogOf(db.missionLogs, missionId, userId).Some?;
      (r == Err(NotFound) <==> m.None?) &&
      (r == Err(CannotStartOwn) <==> m.Some? && m.value.creatorId == userId) &&
      (r == Err(MissionInactive) <==> m.Some? && m.value.creatorId != userId && !m.value.isActive) &&
      (r == Err(AlreadyParticipated) <==>
        m.Some? && m.value.creatorId != userId && m.value.isActive && seen && !m.value.isRepeatable) &&
      (r == Err(MaxParticipants) <==>
        m.Some? && m.value.creatorId != userId && m.value.isActive && (!seen || m.value.isRepeatable) &&
        m.value.maxParticipants.Some? && m.value.currentParticipants >= m.value.maxParticipants.value)
    ensures StartMissionSpec(db, missionId, userId).0.Err? ==> StartMissionSpec(db, missionId, userId).1 == db
  {
  }

  /**
   * A successful start appends one STARTED log for the user and raises the
   * mission's participant count by exactly one, never past its maximum.
   */
  lemma {:induction false} StartEffect(db: Db, missionId: nat, userId: nat)
    requires UniqueMissions(db.missions)
    requires StartMissionSpec(db, missionId, userId).0.Ok?
    ensures StartChecks(db, missionId, userId).Ok?
    ensures var (r, db') := StartMissionSpec(db, missionId, userId);
      var m := StartChecks(db, missionId, userId).value;
      |db'.missionLogs| == |db.missionLogs| + 1 && db'.missionLogs[..|db.missionLogs|] == db.missionLogs &&
      var l := db'.missionLogs[|db.missionLogs|];
      l.id == r.value.id && l.missionId == missionId && l.userId == userId && l.status == Started &&
      !l.rewardClaimed && l.rewardPoints.None? &&
      UniqueMissions(db'.missions) &&
      MissionById(db'.missions, missionId) == Some(m.(currentParticipants := m.currentParticipants + 1)) &&
      (m.maxParticipants.Some? ==> m.currentParticipants + 1 <= m.maxParticipants.value)
  {
    var m := StartChecks(db, missionId, userId).value;
    IncrementLookup(db.missions, m);
  }

  // ---------------------------------------------------------------- submit

  /** json.Marshal of the raw answers: an absent value is written as null. */
  function AnswersJson(answers: Option<string>): string
  {
    if answers.Some? then answers.value else "null"
  }

  /** Service.SubmitMission as written: the user's log for the mission is the first matching row. */
  function SubmitMissionSpec(db: Db, missionId: nat, userId: nat, answers: Option<string>, now: int): (Option<ErrorCode>, Db)
  {
    match LogOf(db.missionLogs, missionId, userId)
    case None => (Some(NotStarted), db)
    case Some(l) =>
      if l.status != Started && l.status != InProgress then (Some(InvalidStatus), db)
      else (None, db.(missionLogs := SubmitLogRows(db.missionLogs, l.id, AnswersJson(answers), now)))
  }

  method SubmitMission(db: Database, missionId: nat, userId: nat, answers: Option<string>, now: int)
    returns (err: Option<ErrorCode>)
    modifies db
    ensures (err, db.Snapshot()) == SubmitMissionSpec(old(db.Snapshot()), missionId, userId, answers, now)
  {
    var l := db.GetLogByMissionAndUser(missionId, userId);
    if l.None? {
      return Some(NotStarted);
    }
    if l.value.status != Started && l.value.status != InProgress {
      return Some(InvalidStatus);
    }
    db.SubmitLog(l.value.id, AnswersJson(answers), now);
    return None;
  }

  /**
   * Submission needs a log in STARTED or IN_PROGRESS; it then marks that log
   * SUBMITTED with the answers. The mission itself is not looked up, so a
   * deleted or inactive mission still takes submissions.
   */
  lemma {:induction false} SubmitOutcomes(db: Db, missionId: nat, userId: nat, answers: Option<string>, now: int, ms: seq<Mission>)
    requires UniqueLogIds(db.missionLogs)
    ensures var (err, db') := SubmitMissionSpec(db, missionId, userId, answers, now);
      var l := LogOf(db.missionLogs, missionId, userId);
      (err == Some(NotStarted) <==> l.None?) &&
      (err == Some(InvalidStatus) <==> l.Some? && l.value.status != Started && l.value.status != InProgress) &&
      (err.Some? ==> db' == db) &&
      (err.None? ==>
        db' == db.(missionLogs := db'.missionLogs) &&
        LogOf(db'.missionLogs, missionId, userId) ==
          Some(l.value.(answers := Some(AnswersJson(answers)), status := Submitted, submittedAt := Some(now))))
    ensures SubmitMissionSpec(db.(missions := ms), missionId, userId, answers, now).0 ==
            SubmitMissionSpec(db, missionId, userId, answers, now).0
  {
    var l := LogOf(db.missionLogs, missionId, userId);
    if l.Some? && (l.value.status == Started || l.value.status == InProgress) {
      SubmitLookup(db.missionLogs, l.value, AnswersJson(answers), now);
    }
  }

  /** Log ids are unique (the primary key). */
  ghost predicate UniqueLogIds(ls: seq<MissionLog>)
  {
    forall i, j :: 0 <= i < |ls| && 0 <= j < |ls| && ls[i].id == ls[j].id ==> i == j
  }

  /** SubmitLog on the log a lookup returned: the same lookup now returns it SUBMITTED. */
  lemma {:induction false} SubmitLookup(ls: seq<MissionLog>, l: MissionLog, answers: string, now: int)
    requires UniqueLogIds(ls) && LogOf(ls, l.missionId, l.userId) == Some(l)
    ensures LogOf(SubmitLogRows(ls, l.id, answers, now), l.missionId, l.userId) ==
            Some(l.(answers := Some(answers), status := Submitted, submittedAt := Some(now)))
  {
    var r := SubmitLogRows(ls, l.id, answers, now);
    var f := (x: MissionLog) => x.missionId == l.missionId && x.userId == l.userId;
    var k := FirstIndex(ls, f).value;
    assert ls[k] == l;
    assert forall i :: 0 <= i < |ls| ==> f(r[i]) == f(ls[i]) && (i != k ==> r[i] == ls[i]);
    assert r[k] == l.(answers := Some(answers), status := Submitted, submittedAt := Some(now));
    FirstIndexSame(ls, r, f, k);
  }

  /** Two tables that agree on the filter everywhere have the same first match. */
  lemma {:induction false} FirstIndexSame<T>(s: seq<T>, t: seq<T>, f: T -> bool, k: nat)
    requires |s| == |t| && k < |s|
    requires forall i :: 0 <= i < |s| ==> f(t[i]) == f(s[i])
    requires FirstIndex(s, f) == Some(k)
    ensures FirstIndex(t, f) == Some(k)
  {
    if k > 0 {
      FirstIndexSame(s[1..], t[1..], f, k - 1);
    }
  }

  /**
   * A repeatable mission started a second time gets a fresh STARTED log, but
   * submission still finds the first, already graded log and is refused.
   */
  lemma {:induction false} RepeatAttemptCannotSubmit(db: Db, missionId: nat, userId: nat, answers: Option<string>, now: int)
    requires var l := LogOf(db.missionLogs, missionId, userId); l.Some? && l.value.status == LogCompleted
    requires StartMissionSpec(db, missionId, userId).0.Ok?
    ensures var db' := StartMissionSpec(db, missionId, userId).1;
      SubmitMissionSpec(db', missionId, userId, answers, now) == (Some(InvalidStatus), db')
  {
    var db' := StartMissionSpec(db, missionId, userId).1;
    var n := StartedLog(missionId, userId).(id := NextId(LogIds(db.missionLogs)));
    assert db'.missionLogs == db.missionLogs + [n];
    FirstIndexAppend(db.missionLogs, n, (l: MissionLog) => l.missionId == missionId && l.userId == userId);
  }

  /** SubmitMission as intended: the attempt submitted is the user's most recent one. */
  function SubmitLatestSpec(db: Db, missionId: nat, userId: nat, answers: Option<string>, now: int): (Option<ErrorCode>, Db)
  {
    match LatestLogOf(db.missionLogs, missionId, userId)
    case None => (Some(NotStarted), db)
    case Some(l) =>
      if l.status != Started && l.status != InProgress then (Some(InvalidStatus), db)
      else (None, db.(missionLogs := SubmitLogRows(db.missionLogs, l.id, AnswersJson(answers), now)))
  }

  /** With the most recent attempt chosen, every successful start can be submitted. */
  lemma {:induction false} StartThenSubmitLatest(db: Db, missionId: nat, userId: nat, answers: Option<string>, now: int)
    requires StartMissionSpec(db, missionId, userId).0.Ok?
    ensures var db' := StartMissionSpec(db, missionId, userId).1;
      SubmitLatestSpec(db', missionId, userId, answers, now).0.None?
  {
    var db' := StartMissionSpec(db, missionId, userId).1;
    var n := StartedLog(missionId, userId).(id := NextId(LogIds(db.missionLogs)));
    assert db'.missionLogs == db.missionLogs + [n];
    assert db'.missionLogs[|db'.missionLogs| - 1] == n;
  }

  // ----------------------------------------------------------------- grade

  /** The checks GradeMission makes: the mission and the participant's submitted log, or the first failure. */
  function GradeChecks(db: Db, missionId: nat, participantId: nat, graderId: nat): (r: Result<(Mission, MissionLog), ErrorCode>)
    ensures r.Ok? ==>
      MissionById(db.missions, missionId) == Some(r.value.0) && r.value.0.creatorId == graderId &&
      LogOf(db.missionLogs, missionId, participantId) == Some(r.value.1) && r.value.1.status == Submitted
  {
    match MissionById(db.missions, missionId)
    case None => Err(NotFound)
    case Some(m) =>
      if m.creatorId != graderId then Err(Forbidden)
      else match LogOf(db.missionLogs, missionId, participantId)
        case None => Err(NotFound)
        case Some(l) =>
          if l.status != Submitted then Err(NotSubmitted)
          else Ok((m, l))
  }

  /** The reward a grading grants: the mission's points when approved, else 0. */
  function Reward(m: Mission, approved: bool): (r: int)
    ensures approved ==> r == m.rewardPoints
    ensures !approved ==> r == 0
  {
    if approved then m.rewardPoints else 0
  }

  /** The ledger entry of a reward; no transaction row is written for it. */
  function RewardEntry(w: Wallet, m: Mission, reward: int, code: string): LedgerEntry
  {
    LedgerEntry(0, w.id, None, Credit, reward, w.balance, w.balance + reward,
                "Mission reward: " + m.title, MissionReward, code)
  }

  /** The credit of an approved grading: the wallet row and one ledger entry. */
  function RewardCredit(db: Db, w: Wallet, m: Mission, reward: int, code: string): Db
  {
    db.(wallets := StatsRows(db.wallets, w.id, reward, true),
        ledger := db.ledger + [RewardEntry(w, m, reward, code).(id := NextId(LedgerIds(db.ledger)))])
  }

  /**
   * Service.GradeMission as written: an approved grading of a participant
   * without a wallet dereferences a nil wallet and panics.
   */
  function GradeMissionAsWritten(db: Db, missionId: nat, participantId: nat, graderId: nat,
                                 req: GradeMissionRequest, env: Env): GoOutcome
    requires ValidEnv(env)
  {
    match GradeChecks(db, missionId, participantId, graderId)
    case Err(e) => Returned(Some(e), db)
    case Ok((m, l)) =>
      var reward := Reward(m, req.approved);
      var db1 := db.(missionLogs := GradeLogRows(db.missionLogs, l.id, req.score, req.notes, req.approved,
                                                 graderId, reward, env.now));
      if !req.approved then Returned(None, db1)
      else match WalletByUser(db.wallets, participantId)
        case None => Panicked
        case Some(w) => Returned(None, RewardCredit(db1, w, m, reward, TransactionCode("MIS", env.today, env.random)))
  }

  /** Service.GradeMission as intended: a missing wallet is reported as WALLET_NOT_FOUND and rolls back. */
  function GradeMissionSpec(db: Db, missionId: nat, participantId: nat, graderId: nat,
                            req: GradeMissionRequest, env: Env): (Option<ErrorCode>, Db)
    requires ValidEnv(env)
  {
    match GradeChecks(db, missionId, participantId, graderId)
    case Err(e) => (Some(e), db)
    case Ok((m, l)) =>
      var reward := Reward(m, req.approved);
      var db1 := db.(missionLogs := GradeLogRows(db.missionLogs, l.id, req.score, req.notes, req.approved,
                                                 graderId, reward, env.now));
      if !req.approved then (None, db1)
      else match WalletByUser(db.wallets, participantId)
        case None => (Some(WalletNotFound), db)
        case Some(w) => (None, RewardCredit(db1, w, m, reward, TransactionCode("MIS", env.today, env.random)))
  }

  /** GradeMission against the live database, with the missing wallet handled. */
  method GradeMission(db: Database, missionId: nat, participantId: nat, graderId: nat,
                      req: GradeMissionRequest, env: Env) returns (err: Option<ErrorCode>)
    requires ValidEnv(env)
    modifies db
    ensures (err, db.Snapshot()) == GradeMissionSpec(old(db.Snapshot()), missionId, participantId, graderId, req, env)
  {
    var mission := db.GetMissionByID(missionId);
    if mission.None? {
      return Some(NotFound);
    }
    var m := mission.value;
    if m.creatorId != graderId {
      return Some(Forbidden);
    }
    var log := db.GetLogByMissionAndUser(missionId, participantId);
    if log.None? {
      return Some(NotFound);
    }
    if log.value.status != Submitted {
      return Some(NotSubmitted);
    }
    var saved := db.Snapshot();
    assert GradeChecks(saved, missionId, participantId, graderId) == Ok((m, log.value));
    var reward := Reward(m, req.approved);
    db.GradeLog(log.value.id, req.score, req.notes, req.approved, graderId, reward, env.now);
    ghost var graded := saved.(missionLogs := GradeLogRows(saved.missionLogs, log.value.id, req.score, req.notes,
                                                           req.approved, graderId, reward, env.now));
    assert db.Snapshot() == graded;
    if req.approved {
      var wallet := db.GetByUserID(participantId);
      if wallet.None? {
        db.Rollback(saved);
        return Some(WalletNotFound);
      }
      var w := wallet.value;
      CreditReward(db, w, m, reward, TransactionCode("MIS", env.today, env.random));
    }
    return None;
  }
  /** The reward writes of an approved grade: the participant's wallet stats, then the reward ledger row. */
  method CreditReward(db: Database, w: Wallet, m: Mission, reward: int, code: string)
    modifies db
    ensures db.Snapshot() == RewardCredit(old(db.Snapshot()), w, m, reward, code)
  {
    db.UpdateBalanceWithStats(w.id, reward, true);
    var _ := db.CreateLedgerEntry(RewardEntry(w, m, reward, code));
  }



  /**
   * The as-written service agrees with the corrected one except on an
   * approved grading of a participant without a wallet, where it panics.
   */
  lemma {:induction false} GradeAsWrittenAgrees(db: Db, missionId: nat, participantId: nat, graderId: nat, req: GradeMissionRequest, env: Env)
    requires ValidEnv(env)
    ensures var panics := GradeChecks(db, missionId, participantId, graderId).Ok? && req.approved &&
                          WalletByUser(db.wallets, participantId).None?;
      var spec := GradeMissionSpec(db, missionId, participantId, graderId, req, env);
      (GradeMissionAsWritten(db, missionId, participantId, graderId, req, env).Panicked? <==> panics) &&
      (!panics ==> GradeMissionAsWritten(db, missionId, participantId, graderId, req, env) == Returned(spec.0, spec.1)) &&
      (panics ==> spec == (Some(WalletNotFound), db))
  {
  }

  /** A concrete grading that panics as written: user 7 submitted but has no wallet. */
  lemma {:induction false} GradeNilWalletPanics(env: Env)
    requires ValidEnv(env)
    ensures var m := Mission(1, "Quiz", None, "QUIZ", 2, 10, None, 1, "EASY", None, true, false, None, None, None, false);
      var l := MissionLog(1, 1, 7, Submitted, None, Some("[]"), false, None, Some(0), None, None, None, None);
      var db := Db([], [], [], [], [], [], [m], [l]);
      GradeMissionAsWritten(db, 1, 7, 2, GradeMissionRequest(1.0, "ok", true), env) == Panicked &&
      GradeMissionSpec(db, 1, 7, 2, GradeMissionRequest(1.0, "ok", true), env) == (Some(WalletNotFound), db)
  {
    var m := Mission(1, "Quiz", None, "QUIZ", 2, 10, None, 1, "EASY", None, true, false, None, None, None, false);
    var l := MissionLog(1, 1, 7, Submitted, None, Some("[]"), false, None, Some(0), None, None, None, None);
    var db := Db([], [], [], [], [], [], [m], [l]);
    assert MissionById(db.missions, 1) == Some(m);
    assert LogOf(db.missionLogs, 1, 7) == Some(l);
  }

  /** Each rejection of GradeMission with the condition that decides it; a rejection writes nothing. */
  lemma {:induction false} GradeRejections(db: Db, missionId: nat, participantId: nat, graderId: nat, req: GradeMissionRequest, env: Env)
    requires ValidEnv(env)
    ensures var err := GradeMissionSpec(db, missionId, participantId, graderId, req, env).0;
      var m := MissionById(db.missions, missionId);
      var l := LogOf(db.missionLogs, missionId, participantId);
      (err == Some(Forbidden) <==> m.Some? && m.value.creatorId != graderId) &&
      (err == Some(NotSubmitted) <==>
        m.Some? && m.value.creatorId == graderId && l.Some? && l.value.status != Submitted) &&
      (err == Some(NotFound) <==> m.None? || (m.value.creatorId == graderId && l.None?)) &&
      (err == Some(WalletNotFound) <==>
        m.Some? && m.value.creatorId == graderId && l.Some? && l.value.status == Submitted &&
        req.approved && WalletByUser(db.wallets, participantId).None?)
    ensures GradeMissionSpec(db, missionId, participantId, graderId, req, env).0.Some? ==>
            GradeMissionSpec(db, missionId, participantId, graderId, req, env).1 == db
  {
  }

  /**
   * A rejected submission is graded FAILED with no reward and touches no
   * wallet and no ledger; an approved one is graded COMPLETED with the
   * mission's reward, the participant's wallet is credited by it and one
   * consistent CREDIT entry records it (for a non-negative reward).
   */
  lemma {:induction false} GradeEffect(db: Db, missionId: nat, participantId: nat, graderId: nat, req: GradeMissionRequest, env: Env)
    requires ValidEnv(env) && UniqueWallets(db.wallets)
    requires GradeMissionSpec(db, missionId, participantId, graderId, req, env).0.None?
    ensures GradeChecks(db, missionId, participantId, graderId).Ok?
    ensures var (m, l) := GradeChecks(db, missionId, participantId, graderId).value;
      var db' := GradeMissionSpec(db, missionId, participantId, graderId, req, env).1;
      db'.transactions == db.transactions && db'.missions == db.missions &&
      db'.missionLogs == GradeLogRows(db.missionLogs, l.id, req.score, req.notes, req.approved, graderId,
                                      Reward(m, req.approved), env.now) &&
      (!req.approved ==> db'.wallets == db.wallets && db'.ledger == db.ledger) &&
      (req.approved ==>
        var w := WalletByUser(db.wallets, participantId).value;
        WalletByUser(db'.wallets, participantId) == Some(WithStats(w, m.rewardPoints, true)) &&
        TotalBalance(db'.wallets) == TotalBalance(db.wallets) + Abs(m.rewardPoints) &&
        |db'.ledger| == |db.ledger| + 1 && db'.ledger[..|db.ledger|] == db.ledger &&
        var e := db'.ledger[|db.ledger|];
        e.walletId == w.id && e.entryType == Credit && e.amount == m.rewardPoints &&
        e.balanceBefore == w.balance && e.referenceType == MissionReward &&
        (m.rewardPoints >= 0 ==> EntryConsistent(e) && e.balanceAfter == WithStats(w, m.rewardPoints, true).balance))
  {
    var (m, l) := GradeChecks(db, missionId, participantId, graderId).value;
    if req.approved {
      var w := WalletByUser(db.wallets, participantId).value;
      StatsRowsUpdate(db.wallets, w, m.rewardPoints, true);
      SingleStatsTotal(db.wallets, w.id, m.rewardPoints, true);
    }
  }

  /** With a non-negative reward, grading keeps the wallet invariant. */
  lemma {:induction false} GradeKeepsInvariant(db: Db, missionId: nat, participantId: nat, graderId: nat, req: GradeMissionRequest, env: Env)
    requires ValidEnv(env) && BackendWalletService.WalletInvariant(db)
    requires var m := MissionById(db.missions, missionId); m.Some? ==> m.value.rewardPoints >= 0
    ensures BackendWalletService.WalletInvariant(GradeMissionSpec(db, missionId, participantId, graderId, req, env).1)
  {
    var (err, db') := GradeMissionSpec(db, missionId, participantId, graderId, req, env);
    if err.None? && req.approved {
      var (m, l) := GradeChecks(db, missionId, participantId, graderId).value;
      var w := WalletByUser(db.wallets, participantId).value;
      StatsRowsUpdate(db.wallets, w, m.rewardPoints, true);
      StatsRowsNonNegative(db.wallets, w, m.rewardPoints, true);
    }
  }

  // ------------------------------------------- update, delete, participants

  /** Applies the fields the request sets to the mission; an absent field keeps its value. */
  function MergeMission(m: Mission, req: UpdateMissionRequest): (r: Mission)
    ensures r.id == m.id && r.creatorId == m.creatorId && r.missionType == m.missionType &&
            r.currentParticipants == m.currentParticipants && r.isRepeatable == m.isRepeatable && r.deleted == m.deleted
    ensures r.rewardPoints == req.rewardPoints.GetOr(m.rewardPoints)
    ensures r.maxParticipants == Overwrite(req.maxParticipants, m.maxParticipants)
    ensures r.isActive == req.isActive.GetOr(m.isActive)
  {
    Mission(m.id, req.title.GetOr(m.title), Overwrite(req.description, m.description),
            m.missionType, m.creatorId, req.rewardPoints.GetOr(m.rewardPoints),
            Overwrite(req.maxParticipants, m.maxParticipants), m.currentParticipants,
            req.difficulty.GetOr(m.difficulty), Overwrite(req.content, m.content),
            req.isActive.GetOr(m.isActive), m.isRepeatable,
            Overwrite(req.startDate, m.startDate), Overwrite(req.endDate, m.endDate),
            Overwrite(req.deadline, m.deadline), m.deleted)
  }

  /** Service.Update: creator only; the merged mission is written back. */
  function UpdateMissionSpec(db: Db, id: nat, req: UpdateMissionRequest, userId: nat): (Option<ErrorCode>, Db)
  {
    match MissionById(db.missions, id)
    case None => (Some(NotFound), db)
    case Some(m) =>
      if m.creatorId != userId then (Some(Forbidden), db)
      else (None, db.(missions := MissionUpdateRows(db.missions, MergeMission(m, req))))
  }

  method UpdateMission(db: Database, id: nat, req: UpdateMissionRequest, userId: nat) returns (err: Option<ErrorCode>)
    modifies db
    ensures (err, db.Snapshot()) == UpdateMissionSpec(old(db.Snapshot()), id, req, userId)
  {
    var m := db.GetMissionByID(id);
    if m.None? {
      return Some(NotFound);
    }
    if m.value.creatorId != userId {
      return Some(Forbidden);
    }
    db.UpdateMission(MergeMission(m.value, req));
    return None;
  }

  /** Service.Delete: creator only; a soft delete. */
  function DeleteMissionSpec(db: Db, id: nat, userId: nat): (Option<ErrorCode>, Db)
  {
    match MissionById(db.missions, id)
    case None => (Some(NotFound), db)
    case Some(m) =>
      if m.creatorId != userId then (Some(Forbidden), db)
      else (None, db.(missions := SoftDeleteMissionRows(db.missions, id)))
  }

  method DeleteMission(db: Database, id: nat, userId: nat) returns (err: Option<ErrorCode>)
    modifies db
    ensures (err, db.Snapshot()) == DeleteMissionSpec(old(db.Snapshot()), id, userId)
  {
    var m := db.GetMissionByID(id);
    if m.None? {
      return Some(NotFound);
    }
    if m.value.creatorId != userId {
      return Some(Forbidden);
    }
    db.DeleteMission(id);
    return None;
  }

  /**
   * Only the creator edits or deletes a mission; anyone else gets FORBIDDEN
   * and nothing is written. After a delete the mission is no longer found,
   * so it can no longer be started.
   */
  lemma {:induction false} CreatorOnlyEdits(db: Db, id: nat, req: UpdateMissionRequest, userId: nat, starter: nat)
    ensures var m := MissionById(db.missions, id);
      var (uErr, uDb) := UpdateMissionSpec(db, id, req, userId);
      var (dErr, dDb) := DeleteMissionSpec(db, id, userId);
      (uErr == Some(NotFound) <==> m.None?) && (dErr == Some(NotFound) <==> m.None?) &&
      (uErr == Some(Forbidden) <==> m.Some? && m.value.creatorId != userId) &&
      (dErr == Some(Forbidden) <==> m.Some? && m.value.creatorId != userId) &&
      (uErr.Some? ==> uDb == db) && (dErr.Some? ==> dDb == db) &&
      (dErr.None? ==> MissionById(dDb.missions, id).None? && StartMissionSpec(dDb, id, starter).0 == Err(NotFound))
  {
    SoftDeleteMissionHides(db.missions, id, id + 1);
  }

  /** One participant as GetParticipants lists them (the user's name is not modelled). */
  datatype ParticipantResponse = ParticipantResponse(
    userId: nat, status: LogStatus, score: Option<real>, submittedAt: Option<int>, completedAt: Option<int>)

  function ToParticipant(l: MissionLog): (r: ParticipantResponse)
    ensures r.userId == l.userId && r.status == l.status && r.score == l.score
  {
    ParticipantResponse(l.userId, l.status, l.score, l.submittedAt, l.completedAt)
  }

  /**
   * Service.GetParticipants: creator only; one response per log of the
   * mission, latest submission first and never-submitted logs last, as the
   * repository's ORDER BY submitted_at DESC returns them.
   */
  method GetParticipants(db: Database, missionId: nat, userId: nat) returns (r: Result<seq<ParticipantResponse>, ErrorCode>)
    ensures var m := MissionById(db.missions, missionId);
      (r == Err(NotFound) <==> m.None?) &&
      (r == Err(Forbidden) <==> m.Some? && m.value.creatorId != userId) &&
      (r.Ok? <==> m.Some? && m.value.creatorId == userId)
    ensures r.Ok? ==>
      (forall p :: p in r.value ==> exists l :: l in db.missionLogs && l.missionId == missionId && p == ToParticipant(l)) &&
      (forall l :: l in db.missionLogs && l.missionId == missionId ==> ToParticipant(l) in r.value)
    ensures r.Ok? ==>
      |r.value| == |MissionLogs(db.missionLogs, missionId)| &&
      forall i, j :: 0 <= i < j < |r.value| ==> NoEarlier(r.value[i].submittedAt, r.value[j].submittedAt)
  {
    var m := db.GetMissionByID(missionId);
    if m.None? {
      return Err(NotFound);
    }
    if m.value.creatorId != userId {
      return Err(Forbidden);
    }
    var logs := db.GetLogsByMissionID(missionId);
    var out: seq<ParticipantResponse> := [];
    for i := 0 to |logs|
      invariant |out| == i
      invariant forall k :: 0 <= k < i ==> out[k] == ToParticipant(logs[k])
    {
      out := out + [ToParticipant(logs[i])];
    }
    forall l | l in db.missionLogs && l.missionId == missionId ensures ToParticipant(l) in out {
      var k :| 0 <= k < |logs| && logs[k] == l;
      assert out[k] == ToParticipant(l);
    }
    assert |logs| == |multiset(logs)| == |multiset(MissionLogs(db.missionLogs, missionId))|;
    return Ok(out);
  }
}
