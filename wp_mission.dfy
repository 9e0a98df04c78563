/**
 * The rewrite's mission handlers (mission/module.go): joining a mission,
 * marking it completed, claiming its reward through CreditPoints,
 * cancelling it and listing the missions that are not cancelled.
 *
 * A participant's progress moves IN_PROGRESS -> COMPLETED -> CLAIMED. The
 * join handler checks the participant limit but never raises the
 * participant count, so the limit never bites.
 */
module WpMission {
  import opened Wrappers
  import opened WpModels
  import opened WpTables
  import opened WpStore
  import opened WpWalletService
  import BT = BackendTables
  import BD = BackendDatabase
  import WpHelpers
  import WpQrService

  // --------------------------------------------------------------- lookups

  /** The condition id = ? AND status = 'active'. */
  function IsActiveMission(id: string): Mission -> bool
  {
    (m: Mission) => m.id == id && m.status == "active"
  }

  function ActiveMission(ms: seq<Mission>, id: string): (r: Option<Mission>)
    ensures r.None? <==> forall m :: m in ms ==> m.id != id || m.status != "active"
    ensures r.Some? ==> r.value in ms && r.value.id == id && r.value.status == "active"
  {
    BT.First(ms, IsActiveMission(id))
  }

  /** The mission a caller may cancel: any mission for an admin, only their own for everyone else. */
  function ManagedMission(ms: seq<Mission>, id: string, userId: string, role: string): (r: Option<Mission>)
    ensures r.Some? ==> r.value in ms && r.value.id == id
    ensures r.Some? && role != "admin" ==> r.value.creatorId == userId
    ensures role != "admin" ==> (r.None? <==> forall m :: m in ms ==> m.id != id || m.creatorId != userId)
  {
    if role == "admin" then MissionById(ms, id)
    else BT.First(ms, (m: Mission) => m.id == id && m.creatorId == userId)
  }

  ghost predicate UniqueProgressIds(ps: seq<MissionProgress>)
  {
    forall i, j :: 0 <= i < j < |ps| ==> ps[i].id != ps[j].id
  }

  /**
   * Rewriting a progress row by its id, keeping its user and mission, makes
   * the user's lookup for that mission return the rewritten row.
   */
  lemma {:induction false} ProgressAfterSave(ps: seq<MissionProgress>, p: MissionProgress, p2: MissionProgress)
    requires UniqueProgressIds(ps)
    requires ProgressOf(ps, p.userId, p.missionId) == Some(p)
    requires p2.id == p.id && p2.userId == p.userId && p2.missionId == p.missionId
    ensures ProgressOf(ProgressRows(ps, p2), p.userId, p.missionId) == Some(p2)
  {
    var rs := ProgressRows(ps, p2);
    var pred := OfUserMission(p.userId, p.missionId);
    var j :| 0 <= j < |ps| && ps[j] == p;
    forall k | 0 <= k < |ps|
      ensures pred(ps[k]) == pred(rs[k])
    {
      if ps[k].id == p.id {
        assert k == j;
        assert rs[k] == p2;
      } else {
        assert rs[k] == ps[k];
      }
    }
    FirstIndexAgree(ps, rs, pred);
    var i := BT.FirstIndex(ps, pred).value;
    assert ps[i] == p;
  }

  /**
   * A mission rewritten by its id: every row with that id is the new one,
   * so the id lookup and the active lookup both return it.
   */
  lemma {:induction false} MissionAfterSave(ms: seq<Mission>, m: Mission, m2: Mission)
    requires m in ms && m2.id == m.id
    ensures MissionById(MissionRows(ms, m2), m.id) == Some(m2)
    ensures m2.status == "active" ==> ActiveMission(MissionRows(ms, m2), m.id) == Some(m2)
    ensures m2.status != "active" ==> ActiveMission(MissionRows(ms, m2), m.id).None?
  {
    var rs := MissionRows(ms, m2);
    var j :| 0 <= j < |ms| && ms[j] == m;
    assert rs[j] == m2;
    forall x | x in rs && x.id == m.id
      ensures x == m2
    {
      var k :| 0 <= k < |rs| && rs[k] == x;
    }
  }

  // ------------------------------------------------------------------ join

  /** JoinMission as written: the checks in the handler's order, then one IN_PROGRESS row. */
  function JoinSpec(db: WpDb, userId: string, missionId: string, id: string): (Result<MissionProgress, WpError>, WpDb)
  {
    match ActiveMission(db.missions, missionId)
    case None => (Err(NotFound("Mission not found or not active")), db)
    case Some(m) =>
      if ProgressOf(db.progress, userId, missionId).Some? then (Err(Conflict("Already joined this mission")), db)
      else if m.maxParticipants > 0 && m.currentParticipants >= m.maxParticipants then
        (Err(BadRequest("Mission is full")), db)
      else
        var p := MissionProgress(id, userId, missionId, "IN_PROGRESS", None, None);
        (Ok(p), db.(progress := db.progress + [p]))
  }

  method JoinMission(store: Store, userId: string, missionId: string, id: string) returns (r: Result<MissionProgress, WpError>)
    modifies store
    ensures (r, store.Snapshot()) == JoinSpec(old(store.Snapshot()), userId, missionId, id)
  {
    var m := ActiveMission(store.missions, missionId);
    if m.None? {
      return Err(NotFound("Mission not found or not active"));
    }
    if ProgressOf(store.progress, userId, missionId).Some? {
      return Err(Conflict("Already joined this mission"));
    }
    if m.value.maxParticipants > 0 && m.value.currentParticipants >= m.value.maxParticipants {
      return Err(BadRequest("Mission is full"));
    }
    var p := MissionProgress(id, userId, missionId, "IN_PROGRESS", None, None);
    store.InsertProgress(p);
    r := Ok(p);
  }

  /**
   * A join either is refused and writes nothing, or adds exactly one
   * IN_PROGRESS row for the user; either way the missions table, and so
   * the participant count, is left alone.
   */
  lemma {:induction false} JoinOutcomes(db: WpDb, userId: string, missionId: string, id: string)
    ensures var (r, db') := JoinSpec(db, userId, missionId, id);
      db'.missions == db.missions &&
      (ActiveMission(db.missions, missionId).None? ==> r == Err(NotFound("Mission not found or not active"))) &&
      (ActiveMission(db.missions, missionId).Some? && ProgressOf(db.progress, userId, missionId).Some? ==>
         r == Err(Conflict("Already joined this mission"))) &&
      (r.Err? ==> db' == db) &&
      (r.Ok? <==> ActiveMission(db.missions, missionId).Some? && ProgressOf(db.progress, userId, missionId).None? &&
                  !(ActiveMission(db.missions, missionId).value.maxParticipants > 0 &&
                    ActiveMission(db.missions, missionId).value.currentParticipants >=
                    ActiveMission(db.missions, missionId).value.maxParticipants)) &&
      (r.Ok? ==> db' == db.(progress := db.progress + [r.value]) && r.value.status == "IN_PROGRESS" &&
                 ProgressOf(db'.progress, userId, missionId) == Some(r.value))
  {
    var (r, db') := JoinSpec(db, userId, missionId, id);
    if r.Ok? {
      var ps := db.progress + [r.value];
      var got := ProgressOf(ps, userId, missionId);
      assert r.value in ps;
      var k :| 0 <= k < |ps| && ps[k] == got.value;
      assert k == |ps| - 1;
    }
  }

  /**
   * A mission for one participant admits a second one: the first join does
   * not raise the count the second join checks.
   */
  lemma {:induction false} FullMissionAdmitsSecond(db: WpDb, missionId: string, u1: string, u2: string, id1: string, id2: string)
    requires u1 != u2
    requires ActiveMission(db.missions, missionId).Some?
    requires ActiveMission(db.missions, missionId).value.maxParticipants == 1
    requires ActiveMission(db.missions, missionId).value.currentParticipants == 0
    requires ProgressOf(db.progress, u1, missionId).None? && ProgressOf(db.progress, u2, missionId).None?
    ensures JoinSpec(db, u1, missionId, id1).0.Ok?
    ensures JoinSpec(JoinSpec(db, u1, missionId, id1).1, u2, missionId, id2).0.Ok?
  {
    JoinOutcomes(db, u1, missionId, id1);
  }

  /** The mission with one more participant. */
  function Joined(m: Mission): (m': Mission)
    ensures m'.id == m.id && m'.maxParticipants == m.maxParticipants
    ensures m'.currentParticipants == m.currentParticipants + 1
  {
    m.(currentParticipants := m.currentParticipants + 1)
  }

  /** The evidently intended join: the same checks, and the count raised by one in the same step. */
  function JoinCorrected(db: WpDb, userId: string, missionId: string, id: string): (Result<MissionProgress, WpError>, WpDb)
  {
    var joined := JoinSpec(db, userId, missionId, id);
    var m := ActiveMission(db.missions, missionId);
    if joined.0.Err? || m.None? then joined
    else (joined.0, joined.1.(missions := MissionRows(db.missions, Joined(m.value))))
  }

  /**
   * The corrected join raises the mission's count by exactly one, so a
   * mission whose count is within its limit stays within it.
   */
  lemma {:induction false} CorrectedJoinCounts(db: WpDb, userId: string, missionId: string, id: string, p: MissionProgress, db1: WpDb)
    requires JoinCorrected(db, userId, missionId, id) == (Ok(p), db1)
    ensures ActiveMission(db.missions, missionId).Some?
    ensures var m := ActiveMission(db.missions, missionId).value;
      MissionById(db1.missions, missionId) == Some(Joined(m)) &&
      (m.maxParticipants > 0 && m.currentParticipants <= m.maxParticipants ==>
         m.currentParticipants + 1 <= m.maxParticipants)
  {
    var m := ActiveMission(db.missions, missionId).value;
    MissionAfterSave(db.missions, m, Joined(m));
  }

  /**
   * Under the corrected join, a mission for one participant refuses the
   * second participant as full.
   */
  lemma {:induction false} CorrectedSecondJoinRefused(db: WpDb, missionId: string, u1: string, u2: string, id1: string, id2: string,
                                   p: MissionProgress, db1: WpDb)
    requires u1 != u2
    requires ActiveMission(db.missions, missionId).Some?
    requires ActiveMission(db.missions, missionId).value.maxParticipants == 1
    requires ActiveMission(db.missions, missionId).value.currentParticipants == 0
    requires ProgressOf(db.progress, u2, missionId).None?
    requires JoinCorrected(db, u1, missionId, id1) == (Ok(p), db1)
    ensures JoinCorrected(db1, u2, missionId, id2) == (Err(BadRequest("Mission is full")), db1)
  {
    var m := ActiveMission(db.missions, missionId).value;
    JoinOutcomes(db, u1, missionId, id1);
    MissionAfterSave(db.missions, m, Joined(m));
    assert ActiveMission(db1.missions, missionId) == Some(Joined(m));
    assert ProgressOf(db1.progress, u2, missionId).None?;
  }

  /** GetMyProgress: the caller's row for the mission, or "Not joined this mission". */
  function MyProgress(ps: seq<MissionProgress>, userId: string, missionId: string): (r: Result<MissionProgress, WpError>)
    ensures r.Err? <==> forall p :: p in ps ==> p.userId != userId || p.missionId != missionId
    ensures r.Err? ==> r.error == NotFound("Not joined this mission")
    ensures r.Ok? ==> r.value in ps && r.value.userId == userId && r.value.missionId == missionId
  {
    match ProgressOf(ps, userId, missionId)
    case None => Err(NotFound("Not joined this mission"))
    case Some(p) => Ok(p)
  }

  /** After an accepted join the caller's progress is the fresh IN_PROGRESS row. */
  lemma {:induction false} JoinThenProgress(db: WpDb, userId: string, missionId: string, id: string, p: MissionProgress, db': WpDb)
    requires JoinSpec(db, userId, missionId, id) == (Ok(p), db')
    ensures MyProgress(db'.progress, userId, missionId) == Ok(p)
    ensures p.id == id && p.status == "IN_PROGRESS" && p.completedAt.None? && p.claimedAt.None?
  {
    JoinOutcomes(db, userId, missionId, id);
  }

  // -------------------------------------------------------------- complete

  /** CompleteMission: the user's IN_PROGRESS row for the mission becomes COMPLETED at `now`. */
  function CompleteSpec(db: WpDb, userId: string, missionId: string, now: int): (Result<MissionProgress, WpError>, WpDb)
  {
    match ProgressIn(db.progress, userId, missionId, "IN_PROGRESS")
    case None => (Err(NotFound("Mission progress not found")), db)
    case Some(p) =>
      var done := p.(status := "COMPLETED", completedAt := Some(now));
      (Ok(done), db.(progress := ProgressRows(db.progress, done)))
  }

  method CompleteMission(store: Store, userId: string, missionId: string, now: int) returns (r: Result<MissionProgress, WpError>)
    modifies store
    ensures (r, store.Snapshot()) == CompleteSpec(old(store.Snapshot()), userId, missionId, now)
  {
    var p := ProgressIn(store.progress, userId, missionId, "IN_PROGRESS");
    if p.None? {
      return Err(NotFound("Mission progress not found"));
    }
    var done := p.value.(status := "COMPLETED", completedAt := Some(now));
    store.SaveProgress(done);
    r := Ok(done);
  }

  /** Completion only ever starts from IN_PROGRESS and ends at COMPLETED; wallets and missions are untouched. */
  lemma {:induction false} CompleteOutcomes(db: WpDb, userId: string, missionId: string, now: int)
    ensures var (r, db') := CompleteSpec(db, userId, missionId, now);
      db'.wallets == db.wallets && db'.missions == db.missions && db'.transactions == db.transactions &&
      (r.Err? <==> forall p :: p in db.progress ==> p.userId != userId || p.missionId != missionId || p.status != "IN_PROGRESS") &&
      (r.Err? ==> db' == db) &&
      (r.Ok? ==> r.value.status == "COMPLETED" && r.value.completedAt == Some(now) &&
                 r.value.userId == userId && r.value.missionId == missionId &&
                 exists p :: p in db.progress && p.status == "IN_PROGRESS" && p.id == r.value.id)
  {
  }

  // ----------------------------------------------------------------- claim

  /** What a claim ends in; Panicked is the nil mission dereference. */
  datatype ClaimOutcome =
    | Claimed(amount: int, transactionId: string, balance: int)
    | AlreadyPaid(transactionId: string)
    | Refused(error: WpError)
    | Panicked

  /** The header's key, or one built from the mission, the user and the second of the request. */
  function ClaimKey(headerKey: string, missionId: string, userId: string, stamp: string): (k: string)
    ensures headerKey != "" ==> k == headerKey
    ensures k != ""
  {
    if headerKey == "" then "claim_" + missionId + "_" + userId + "_" + stamp else headerKey
  }

  /**
   * Without a header key the claim key embeds the request's second, so a
   * retry stamped with another second carries another key and is not
   * recognised as a replay.
   */
  lemma {:induction false} ClaimKeyPerSecond(missionId: string, userId: string, stamp1: string, stamp2: string)
    requires stamp1 != stamp2
    ensures ClaimKey("", missionId, userId, stamp1) != ClaimKey("", missionId, userId, stamp2)
  {
    var prefix := "claim_" + missionId + "_" + userId + "_";
    assert ClaimKey("", missionId, userId, stamp1) == prefix + stamp1;
    assert ClaimKey("", missionId, userId, stamp2) == prefix + stamp2;
    assert (prefix + stamp1)[|prefix|..] == stamp1;
    assert (prefix + stamp2)[|prefix|..] == stamp2;
  }

  /** ClaimReward as written. */
  function ClaimSpec(db: WpDb, userId: string, missionId: string, headerKey: string, stamp: string,
                     ids: seq<string>, now: int): (ClaimOutcome, WpDb)
    requires |ids| >= 2
  {
    match ProgressOf(db.progress, userId, missionId)
    case None => (Refused(NotFound("Mission progress not found")), db)
    case Some(p) =>
      if p.status == "CLAIMED" then (Refused(Conflict("Reward already claimed")), db)
      else if p.status != "COMPLETED" then (Refused(BadRequest("Mission not completed yet")), db)
      else match MissionById(db.missions, p.missionId)
        case None => (Panicked, db)
        case Some(m) =>
          var key := ClaimKey(headerKey, missionId, userId, stamp);
          var credit := CreditPointsSpec(db, CreditArgs(userId, m.pointsReward, "MISSION_REWARD",
                                                        "Mission reward: " + m.title, key), ids);
          match credit.0
          case Duplicate(t) => (AlreadyPaid(t.id), credit.1)
          case Failed(_) => (Refused(InternalError), credit.1)
          case Done(t) =>
            var db2 := credit.1.(progress := ProgressRows(credit.1.progress, p.(status := "CLAIMED", claimedAt := Some(now))));
            (Claimed(m.pointsReward, t.id, WpQrService.BalanceOf(db2.wallets, userId)), db2)
  }

  method ClaimReward(store: Store, userId: string, missionId: string, headerKey: string, stamp: string,
                     ids: seq<string>, now: int) returns (r: ClaimOutcome)
    requires |ids| >= 2
    modifies store
    ensures (r, store.Snapshot()) == ClaimSpec(old(store.Snapshot()), userId, missionId, headerKey, stamp, ids, now)
  {
    var key := ClaimKey(headerKey, missionId, userId, stamp);
    var p := ProgressOf(store.progress, userId, missionId);
    if p.None? {
      return Refused(NotFound("Mission progress not found"));
    }
    if p.value.status == "CLAIMED" {
      return Refused(Conflict("Reward already claimed"));
    }
    if p.value.status != "COMPLETED" {
      return Refused(BadRequest("Mission not completed yet"));
    }
    var m := MissionById(store.missions, p.value.missionId);
    if m.None? {
      return Panicked;
    }
    var out := CreditPoints(store, CreditArgs(userId, m.value.pointsReward, "MISSION_REWARD",
                                              "Mission reward: " + m.value.title, key), ids);
    if out.Duplicate? {
      return AlreadyPaid(out.existing.id);
    }
    if out.Failed? {
      return Refused(InternalError);
    }
    store.SaveProgress(p.value.(status := "CLAIMED", claimedAt := Some(now)));
    var w := store.GetByUserID(userId);
    r := Claimed(m.value.pointsReward, out.tx.id, if w.Some? then w.value.balance else 0);
  }

  /** CreditPoints touches only the transaction and ledger tables. */
  lemma {:induction false} CreditKeepsRest(db: WpDb, a: CreditArgs, ids: seq<string>)
    requires |ids| >= 2
    ensures var db' := CreditPointsSpec(db, a, ids).1;
      db'.wallets == db.wallets && db'.progress == db.progress && db'.missions == db.missions
  {
  }

  /**
   * Claims follow the status machine: nothing but a COMPLETED row pays, and
   * a refused claim writes nothing.
   */
  lemma {:induction false} ClaimRejections(db: WpDb, userId: string, missionId: string, headerKey: string, stamp: string,
                        ids: seq<string>, now: int, r: ClaimOutcome, db': WpDb)
    requires |ids| >= 2
    requires ClaimSpec(db, userId, missionId, headerKey, stamp, ids, now) == (r, db')
    ensures var p := ProgressOf(db.progress, userId, missionId);
      (p.None? ==> r == Refused(NotFound("Mission progress not found"))) &&
      (p.Some? && p.value.status == "CLAIMED" ==> r == Refused(Conflict("Reward already claimed"))) &&
      (p.Some? && p.value.status != "CLAIMED" && p.value.status != "COMPLETED" ==>
         r == Refused(BadRequest("Mission not completed yet"))) &&
      (r.Claimed? ==> p.Some? && p.value.status == "COMPLETED") &&
      (r.Refused? || r.Panicked? ==> db'.progress == db.progress && db'.wallets == db.wallets)
  {
    match ProgressOf(db.progress, userId, missionId)
    case None =>
    case Some(p) =>
      if p.status == "COMPLETED" {
        match MissionById(db.missions, p.missionId)
        case None =>
        case Some(m) =>
          CreditKeepsRest(db, CreditArgs(userId, m.pointsReward, "MISSION_REWARD", "Mission reward: " + m.title,
                                         ClaimKey(headerKey, missionId, userId, stamp)), ids);
      }
  }

  /**
   * A paid claim marks the row CLAIMED, so the next claim is refused as
   * already claimed; the wallet table is untouched by the claim, because
   * CreditPoints writes no balance.
   */
  lemma {:induction false} ClaimedOnce(db: WpDb, userId: string, missionId: string, headerKey: string, stamp: string,
                    ids: seq<string>, now: int, amount: int, txId: string, balance: int, db': WpDb,
                    headerKey2: string, stamp2: string, ids2: seq<string>, now2: int)
    requires |ids| >= 2 && |ids2| >= 2
    requires UniqueProgressIds(db.progress)
    requires ClaimSpec(db, userId, missionId, headerKey, stamp, ids, now) == (Claimed(amount, txId, balance), db')
    ensures db'.wallets == db.wallets
    ensures ProgressOf(db'.progress, userId, missionId).Some?
    ensures ProgressOf(db'.progress, userId, missionId).value.status == "CLAIMED"
    ensures ClaimSpec(db', userId, missionId, headerKey2, stamp2, ids2, now2).0 == Refused(Conflict("Reward already claimed"))
  {
    var p := ProgressOf(db.progress, userId, missionId).value;
    var p2 := p.(status := "CLAIMED", claimedAt := Some(now));
    ClaimPaidWrites(db, userId, missionId, headerKey, stamp, ids, now, Claimed(amount, txId, balance), db', p);
    ProgressAfterSave(db.progress, p, p2);
  }

  /** A paid claim leaves the wallets as they were and rewrites the caller's progress row as CLAIMED. */
  lemma {:induction false} ClaimPaidWrites(db: WpDb, userId: string, missionId: string, headerKey: string, stamp: string,
                                           ids: seq<string>, now: int, out: ClaimOutcome, db': WpDb, p: MissionProgress)
    requires |ids| >= 2
    requires ProgressOf(db.progress, userId, missionId) == Some(p)
    requires ClaimSpec(db, userId, missionId, headerKey, stamp, ids, now) == (out, db') && out.Claimed?
    ensures db'.wallets == db.wallets
    ensures db'.progress == ProgressRows(db.progress, p.(status := "CLAIMED", claimedAt := Some(now)))
  {
    var m := MissionById(db.missions, p.missionId).value;
    var a := CreditArgs(userId, m.pointsReward, "MISSION_REWARD", "Mission reward: " + m.title,
                        ClaimKey(headerKey, missionId, userId, stamp));
    CreditKeepsRest(db, a, ids);
  }

  /** A progress row whose mission row is missing makes a claim crash instead of answering. */
  lemma {:induction false} ClaimWithoutMissionPanics(db: WpDb, userId: string, missionId: string, headerKey: string, stamp: string,
                                  ids: seq<string>, now: int)
    requires |ids| >= 2
    requires ProgressOf(db.progress, userId, missionId).Some?
    requires ProgressOf(db.progress, userId, missionId).value.status == "COMPLETED"
    requires MissionById(db.missions, missionId).None?
    ensures ClaimSpec(db, userId, missionId, headerKey, stamp, ids, now) == (Panicked, db)
  {
  }

  // ---------------------------------------------------------------- delete

  /** DeleteMission: the caller's mission has its status set to "cancelled". */
  function DeleteSpec(db: WpDb, missionId: string, userId: string, role: string): (Option<WpError>, WpDb)
  {
    match ManagedMission(db.missions, missionId, userId, role)
    case None => (Some(NotFound("Mission not found")), db)
    case Some(m) => (None, db.(missions := MissionRows(db.missions, m.(status := "cancelled"))))
  }

  method DeleteMission(store: Store, missionId: string, userId: string, role: string) returns (err: Option<WpError>)
    modifies store
    ensures (err, store.Snapshot()) == DeleteSpec(old(store.Snapshot()), missionId, userId, role)
  {
    var m := ManagedMission(store.missions, missionId, userId, role);
    if m.None? {
      return Some(NotFound("Mission not found"));
    }
    store.SaveMission(m.value.(status := "cancelled"));
    err := None;
  }

  /** The condition status != 'cancelled', and type = ? when a type is given. */
  function Listed(missionType: string): Mission -> bool
  {
    (m: Mission) => m.status != "cancelled" && (missionType == "" || m.missionType == missionType)
  }

  /** GetMissions: the listed missions newest first, one page, and the page count. */
  function MissionPage(ms: seq<Mission>, missionType: string, page: int, limit: int): (seq<Mission>, int)
  {
    var listed := BT.Filter(ms, Listed(missionType));
    var pg := WpHelpers.CalculatePagination(page, limit, |listed|);
    (PageRows(BD.Newest(listed), pg.offset, limit), pg.totalPages)
  }

  /** A mission no longer listed: no row of a listing page carries its id. */
  lemma {:induction false} UnlistedNotPaged(ms: seq<Mission>, missionId: string, missionType: string, page: int, limit: int)
    requires forall x :: x in ms && x.id == missionId ==> x.status == "cancelled"
    ensures forall x :: x in MissionPage(ms, missionType, page, limit).0 ==>
      x.id != missionId
  {
    var listed := BT.Filter(ms, Listed(missionType));
    var nl := BD.Newest(listed);
    var offset := WpHelpers.CalculatePagination(page, limit, |listed|).offset;
    var rows := PageRows(nl, offset, limit);
    assert MissionPage(ms, missionType, page, limit).0 == rows;
    forall x | x in rows
      ensures x.id != missionId
    {
      assert x in nl;
      var i :| 0 <= i < |nl| && nl[i] == x;
      var k := |listed| - 1 - i;
      assert listed[k] == x;
      assert x in ms && Listed(missionType)(x);
    }
  }

  /**
   * A cancelled mission drops out of every listing page, yet its row keeps
   * the reward and title, which is all a claim reads from it.
   */
  lemma {:induction false} CancelledMissionHidden(db: WpDb, missionId: string, userId: string, role: string, db': WpDb,
                               missionType: string, page: int, limit: int)
    requires DeleteSpec(db, missionId, userId, role) == (None, db')
    ensures ManagedMission(db.missions, missionId, userId, role).Some?
    ensures var m := ManagedMission(db.missions, missionId, userId, role).value;
      MissionById(db'.missions, missionId) == Some(m.(status := "cancelled"))
    ensures forall x :: x in MissionPage(db'.missions, missionType, page, limit).0 ==> x.id != missionId
  {
    var m := ManagedMission(db.missions, missionId, userId, role).value;
    var m2 := m.(status := "cancelled");
    MissionAfterSave(db.missions, m, m2);
    forall x | x in db'.missions && x.id == missionId
      ensures x.status == "cancelled"
    {
      var k :| 0 <= k < |db'.missions| && db'.missions[k] == x;
    }
    UnlistedNotPaged(db'.missions, missionId, missionType, page, limit);
  }
}
