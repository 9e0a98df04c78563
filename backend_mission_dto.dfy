/** Requests and responses of the backend's mission endpoints. */
module BackendMissionDto {
  import opened Wrappers
  import opened BackendEntities
  import opened BackendValidation

  datatype CreateMissionRequest = CreateMissionRequest(
    title: string, description: string, missionType: string, rewardPoints: int,
    maxParticipants: Option<int>, difficulty: string, content: string,
    startDate: Option<int>, endDate: Option<int>, deadline: Option<int>, isRepeatable: bool)

  /** UpdateMissionRequest: every field optional. */
  datatype UpdateMissionRequest = UpdateMissionRequest(
    title: Option<string>, description: Option<string>, rewardPoints: Option<int>,
    maxParticipants: Option<int>, difficulty: Option<string>, content: Option<string>,
    isActive: Option<bool>, startDate: Option<int>, endDate: Option<int>, deadline: Option<int>)

  predicate KnownMissionType(t: string)
  {
    t == "QUIZ" || t == "ASSIGNMENT" || t == "ATTENDANCE" || t == "PROJECT" || t == "OTHER"
  }

  predicate KnownDifficulty(d: string) { d == "EASY" || d == "MEDIUM" || d == "HARD" }

  /**
   * CreateMissionRequest.Validate: the errors and the request as it leaves
   * it, with an empty difficulty rewritten to MEDIUM first. An empty mission
   * type fails both the "required" and the "invalid" check.
   */
  function ValidateCreateMission(r: CreateMissionRequest): (res: (seq<FieldError>, CreateMissionRequest))
    ensures res.1 == if r.difficulty == "" then r.(difficulty := "MEDIUM") else r
    ensures res.0 == [] <==>
      r.title != "" && KnownMissionType(r.missionType) && r.rewardPoints > 0 && KnownDifficulty(res.1.difficulty)
  {
    var n := if r.difficulty == "" then r.(difficulty := "MEDIUM") else r;
    var a := Check(r.title == "", TitleField, "Title is required");
    var b := Check(r.missionType == "", MissionTypeField, "Mission type is required");
    var c := Check(!KnownMissionType(r.missionType), MissionTypeField, "Invalid mission type");
    var d := Check(r.rewardPoints <= 0, RewardPointsField, "Reward points must be positive");
    var e := Check(!KnownDifficulty(n.difficulty), DifficultyField, "Invalid difficulty");
    assert |a + b + c + d + e| == |a| + |b| + |c| + |d| + |e|;
    (a + b + c + d + e, n)
  }

  /** Each field is reported exactly when its own check fails. */
  lemma {:induction false} ValidateCreateMissionReports(r: CreateMissionRequest)
    ensures var (es, n) := ValidateCreateMission(r);
      (Reports(es, TitleField) <==> r.title == "") &&
      (Reports(es, MissionTypeField) <==> !KnownMissionType(r.missionType)) &&
      (Reports(es, RewardPointsField) <==> r.rewardPoints <= 0) &&
      (Reports(es, DifficultyField) <==> !KnownDifficulty(n.difficulty))
  {
    var n := if r.difficulty == "" then r.(difficulty := "MEDIUM") else r;
    var a := Check(r.title == "", TitleField, "Title is required");
    var b := Check(r.missionType == "", MissionTypeField, "Mission type is required");
    var c := Check(!KnownMissionType(r.missionType), MissionTypeField, "Invalid mission type");
    var d := Check(r.rewardPoints <= 0, RewardPointsField, "Reward points must be positive");
    var e := Check(!KnownDifficulty(n.difficulty), DifficultyField, "Invalid difficulty");
    assert ValidateCreateMission(r) == (a + b + c + d + e, n);
    ReportsCheck(r.title == "", TitleField, "Title is required");
    ReportsCheck(r.missionType == "", MissionTypeField, "Mission type is required");
    ReportsCheck(!KnownMissionType(r.missionType), MissionTypeField, "Invalid mission type");
    ReportsCheck(r.rewardPoints <= 0, RewardPointsField, "Reward points must be positive");
    ReportsCheck(!KnownDifficulty(n.difficulty), DifficultyField, "Invalid difficulty");
    ReportsFive(a, b, c, d, e, TitleField);
    ReportsFive(a, b, c, d, e, MissionTypeField);
    ReportsFive(a, b, c, d, e, RewardPointsField);
    ReportsFive(a, b, c, d, e, DifficultyField);
  }

  /** An empty mission type is reported twice: once as missing and once as invalid. */
  lemma {:induction false} MissionTypeErrorCount(r: CreateMissionRequest)
    ensures Count(ValidateCreateMission(r).0, MissionTypeField) ==
      (if r.missionType == "" then 2 else if KnownMissionType(r.missionType) then 0 else 1)
  {
    var n := if r.difficulty == "" then r.(difficulty := "MEDIUM") else r;
    TypeChecksCount(r.title == "", r.missionType == "", !KnownMissionType(r.missionType), r.rewardPoints <= 0,
                    !KnownDifficulty(n.difficulty), "Title is required", "Mission type is required",
                    "Invalid mission type", "Reward points must be positive", "Invalid difficulty");
    assert !KnownMissionType("");
  }

  /** In the five checks of a mission request only the two mission-type checks name the mission type. */
  lemma {:induction false} TypeChecksCount(titleBad: bool, typeEmpty: bool, typeUnknown: bool, rewardBad: bool, difficultyBad: bool,
                                           m1: string, m2: string, m3: string, m4: string, m5: string)
    ensures Count(Check(titleBad, TitleField, m1) + Check(typeEmpty, MissionTypeField, m2) +
                  Check(typeUnknown, MissionTypeField, m3) + Check(rewardBad, RewardPointsField, m4) +
                  Check(difficultyBad, DifficultyField, m5), MissionTypeField) ==
      (if typeEmpty then 1 else 0) + (if typeUnknown then 1 else 0)
  {
    CountCheck(titleBad, TitleField, m1, MissionTypeField);
    CountCheck(typeEmpty, MissionTypeField, m2, MissionTypeField);
    CountCheck(typeUnknown, MissionTypeField, m3, MissionTypeField);
    CountCheck(rewardBad, RewardPointsField, m4, MissionTypeField);
    CountCheck(difficultyBad, DifficultyField, m5, MissionTypeField);
    CountJoin5(Check(titleBad, TitleField, m1), Check(typeEmpty, MissionTypeField, m2),
               Check(typeUnknown, MissionTypeField, m3), Check(rewardBad, RewardPointsField, m4),
               Check(difficultyBad, DifficultyField, m5), MissionTypeField);
  }



  /** The JSON view of a mission; max_participants is omitted when None. */
  datatype MissionResponse = MissionResponse(
    id: nat, title: string, description: string, missionType: string, creatorId: nat,
    creatorName: string, rewardPoints: int, maxParticipants: Option<int>,
    currentParticipants: int, difficulty: string, content: Option<string>,
    isActive: bool, isRepeatable: bool,
    startDate: Option<int>, endDate: Option<int>, deadline: Option<int>)

  /** ToMissionResponse: optional columns are exposed only when they are not NULL. */
  function ToMissionResponse(m: Mission, creatorName: string): (r: MissionResponse)
    ensures r.maxParticipants == m.maxParticipants
    ensures r.description == if m.description.Some? then m.description.value else ""
    ensures r.content == m.content && r.startDate == m.startDate && r.endDate == m.endDate && r.deadline == m.deadline
    ensures r.id == m.id && r.creatorId == m.creatorId && r.rewardPoints == m.rewardPoints
    ensures r.currentParticipants == m.currentParticipants && r.isActive == m.isActive
  {
    MissionResponse(m.id, m.title, m.description.GetOr(""), m.missionType, m.creatorId, creatorName,
                    m.rewardPoints, m.maxParticipants, m.currentParticipants, m.difficulty,
                    m.content, m.isActive, m.isRepeatable, m.startDate, m.endDate, m.deadline)
  }
}
