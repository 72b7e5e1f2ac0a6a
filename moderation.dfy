/** Blocking and reporting, `ViewModels/Access/ReportBlockViewModel.swift`:
    the symmetric block check, the `blocked` list updates, and the report
    count that suspends a user. */
module Moderation {
  import opened Wrappers
  import opened Documents
  import opened ChatModels
  import opened Backend
  import opened UserModels

  /** The number of open reports at which a user is suspended. */
  const SuspensionThreshold: nat := 20

  const BlockFailed: string := "❌ Failed to block: "
  const UnblockFailed: string := "❌ Failed to unblock: "
  const ReportFailed: string := "❌ Report failed: "

  /** `isBlockedBetween(currentId:targetId:)` over the two user reads: either
      side's `blocked` list (empty when missing) names the other. A failed
      read answers blocked. */
  function BlockedBetween(users: map<string, Doc>, currentId: string, targetId: string, meRead: Step, themRead: Step): (blocked: bool)
    ensures meRead.Failed? || themRead.Failed? ==> blocked
  {
    if meRead.Failed? || themRead.Failed? then true
    else targetId in BlockedOf(users, currentId) || currentId in BlockedOf(users, targetId)
  }

  /** The reports `checkReportThreshold` counts: about `userId`, with
      `action == false`. */
  function OpenReports(reports: map<string, Doc>, userId: string): (open: set<string>)
    ensures open <= reports.Keys
    ensures forall id :: id in open ==> GetStr(reports[id], "reportedId") == Some(userId)
  {
    set id | id in reports && GetStr(reports[id], "reportedId") == Some(userId) && GetBool(reports[id], "action") == Some(false)
  }

  /** The document `reportUser` adds. */
  function ReportDoc(reporterId: string, reportedId: string, reason: string, otherReason: Option<string>, now: int): Doc {
    map[
      "reporterId" := Str(reporterId),
      "reportedId" := Str(reportedId),
      "reason" := Str(reason),
      "otherReason" := Str(otherReason.GetOr("")),
      "action" := Bool(false),
      "feedback" := Str(""),
      "timestamp" := Ts(now)]
  }

  class ReportBlockViewModel {
    var isBlocked: bool
    var errorMessage: string
    var submitted: bool
    const db: Database

    constructor(db: Database)
      ensures this.db == db && !isBlocked && errorMessage == "" && !submitted
    {
      this.db := db;
      isBlocked := false;
      errorMessage := "";
      submitted := false;
    }

    /** `blockUser(targetId:)`: nothing without a uid; otherwise the target
        joins the caller's `blocked` list, and `isBlocked` turns true only
        when that update went through. */
    method BlockUser(myId: Option<string>, targetId: string, write: Step)
      modifies this, db
      ensures submitted == old(submitted)
      ensures myId.None? ==> db.store == old(db.store) && isBlocked == old(isBlocked) && errorMessage == old(errorMessage)
      ensures myId.Some? ==>
        var users := old(db.store.users);
        var err := UpdateError(users, myId.value, write);
        && db.store == old(db.store).(users := Updated(users, myId.value, BlockFields(users, myId.value, targetId), write))
        && isBlocked == (err.None? || old(isBlocked))
        && errorMessage == (if err.None? then old(errorMessage) else BlockFailed + err.value)
    {
      if myId.None? {
        return;
      }
      var step := db.TryUpdate(Users, myId.value, BlockFields(db.store.users, myId.value, targetId), write);
      if step.Ok? {
        isBlocked := true;
      } else {
        errorMessage := BlockFailed + step.reason;
      }
    }

    /** `unblockUser(targetId:)`: the target leaves the caller's `blocked`
        list, and `isBlocked` turns false only when that went through. */
    method UnblockUser(myId: Option<string>, targetId: string, write: Step)
      modifies this, db
      ensures submitted == old(submitted)
      ensures myId.None? ==> db.store == old(db.store) && isBlocked == old(isBlocked) && errorMessage == old(errorMessage)
      ensures myId.Some? ==>
        var users := old(db.store.users);
        var err := UpdateError(users, myId.value, write);
        && db.store == old(db.store).(users := Updated(users, myId.value, UnblockFields(users, myId.value, targetId), write))
        && isBlocked == (err.Some? && old(isBlocked))
        && errorMessage == (if err.None? then old(errorMessage) else UnblockFailed + err.value)
    {
      if myId.None? {
        return;
      }
      var step := db.TryUpdate(Users, myId.value, UnblockFields(db.store.users, myId.value, targetId), write);
      if step.Ok? {
        isBlocked := false;
      } else {
        errorMessage := UnblockFailed + step.reason;
      }
    }

    /** `isBlockedBetween(currentId:targetId:)`. */
    method IsBlockedBetween(currentId: string, targetId: string, meRead: Step, themRead: Step) returns (blocked: bool)
      ensures blocked == BlockedBetween(db.store.users, currentId, targetId, meRead, themRead)
    {
      if meRead.Failed? || themRead.Failed? {
        return true;
      }
      var myBlocked := BlockedOf(db.store.users, currentId);
      var theirBlocked := BlockedOf(db.store.users, targetId);
      blocked := targetId in myBlocked || currentId in theirBlocked;
    }

    /** `checkReportThreshold(for:)`: sets `isSuspended` to whether the open
        reports about the user reach the threshold, setting or clearing it.
        A failed query or update changes nothing and is only logged. */
    method CheckReportThreshold(userId: string, query: Step, write: Step)
      modifies db
      ensures db.store == old(db.store).(users :=
        if query.Ok?
        then Updated(old(db.store.users), userId,
               map["isSuspended" := Bool(|OpenReports(old(db.store.reports), userId)| >= SuspensionThreshold)], write)
        else old(db.store.users))
    {
      if query.Failed? {
        return;
      }
      var reportCount := |OpenReports(db.store.reports, userId)|;
      var shouldSuspend := reportCount >= SuspensionThreshold;
      var _ := db.TryUpdate(Users, userId, map["isSuspended" := Bool(shouldSuspend)], write);
    }

    /** `reportUser(reportedId:reason:otherReason:)`: nothing without a uid;
        a failed write only sets `errorMessage`; otherwise the report is
        added, `submitted` set, and the threshold check run. */
    method ReportUser(reporterId: Option<string>, reportedId: string, reason: string, otherReason: Option<string>,
                      write: Step, query: Step, suspendWrite: Step, now: int)
      returns (ghost reportId: string)
      modifies this, db
      ensures isBlocked == old(isBlocked)
      ensures reporterId.None? ==> db.store == old(db.store) && submitted == old(submitted) && errorMessage == old(errorMessage)
      ensures reporterId.Some? && write.Failed? ==>
        db.store == old(db.store) && submitted == old(submitted) && errorMessage == ReportFailed + write.reason
      ensures reporterId.Some? && write.Ok? ==>
        var reports := old(db.store.reports)[reportId := ReportDoc(reporterId.value, reportedId, reason, otherReason, now)];
        && reportId !in old(db.store.reports)
        && submitted && errorMessage == old(errorMessage)
        && db.store == old(db.store).(reports := reports, users :=
             if query.Ok?
             then Updated(old(db.store.users), reportedId,
                    map["isSuspended" := Bool(|OpenReports(reports, reportedId)| >= SuspensionThreshold)], suspendWrite)
             else old(db.store.users))
    {
      reportId := "";
      if reporterId.None? {
        return;
      }
      if write.Failed? {
        errorMessage := ReportFailed + write.reason;
        return;
      }
      reportId := db.Add(Reports, ReportDoc(reporterId.value, reportedId, reason, otherReason, now));
      submitted := true;
      CheckReportThreshold(reportedId, query, suspendWrite);
    }
  }

  // ------------------------------------------------------------ properties

  /** Neither side can see the other: the check gives the same answer with
      the two users swapped. */
  lemma BlockedBetweenSymmetric(users: map<string, Doc>, a: string, b: string, aRead: Step, bRead: Step)
    ensures BlockedBetween(users, a, b, aRead, bRead) == BlockedBetween(users, b, a, bRead, aRead)
  {
  }

  /** The `blocked` list a user document holds after one of the list updates. */
  lemma BlockedAfterUpdate(users: map<string, Doc>, uid: string, list: seq<string>)
    requires uid in users
    ensures BlockedOf(users[uid := users[uid] + map["blocked" := StrList(list)]], uid) == list
  {
    assert GetStrList(users[uid] + map["blocked" := StrList(list)], "blocked") == Some(list);
  }

  /** A block that went through adds the target to the caller's list, keeps
      the rest, and from then on the pair counts as blocked both ways. */
  lemma BlockTakesEffect(users: map<string, Doc>, uid: string, target: string, aRead: Step, bRead: Step)
    requires uid in users
    ensures var after := Updated(users, uid, BlockFields(users, uid, target), Ok);
      && (forall y :: y in BlockedOf(after, uid) <==> y in BlockedOf(users, uid) || y == target)
      && BlockedBetween(after, uid, target, aRead, bRead)
      && BlockedBetween(after, target, uid, bRead, aRead)
  {
    BlockedAfterUpdate(users, uid, ArrayUnion(BlockedOf(users, uid), target));
  }

  /** Blocking twice stores the same list as blocking once. */
  lemma BlockIdempotent(users: map<string, Doc>, uid: string, target: string)
    requires uid in users
    ensures var once := Updated(users, uid, BlockFields(users, uid, target), Ok);
      BlockedOf(Updated(once, uid, BlockFields(once, uid, target), Ok), uid) == BlockedOf(once, uid)
  {
    var once := Updated(users, uid, BlockFields(users, uid, target), Ok);
    BlockedAfterUpdate(users, uid, ArrayUnion(BlockedOf(users, uid), target));
    BlockedAfterUpdate(once, uid, ArrayUnion(BlockedOf(once, uid), target));
    ArrayUnionIdempotent(BlockedOf(users, uid), target);
  }

  /** Block then unblock leaves the target off the caller's list and the
      list as an unblock alone would leave it. */
  lemma BlockThenUnblock(users: map<string, Doc>, uid: string, target: string)
    requires uid in users
    ensures var blocked := Updated(users, uid, BlockFields(users, uid, target), Ok);
      var unblocked := Updated(blocked, uid, UnblockFields(blocked, uid, target), Ok);
      && target !in BlockedOf(unblocked, uid)
      && BlockedOf(unblocked, uid) == ArrayRemove(BlockedOf(users, uid), target)
  {
    var blocked := Updated(users, uid, BlockFields(users, uid, target), Ok);
    BlockedAfterUpdate(users, uid, ArrayUnion(BlockedOf(users, uid), target));
    BlockedAfterUpdate(blocked, uid, ArrayRemove(BlockedOf(blocked, uid), target));
    UnionThenRemove(BlockedOf(users, uid), target);
  }

  /** The report `reportUser` writes is the encoding of an open report with
      no feedback, and it raises the reported user's open count by one. */
  lemma ReportRaisesCount(reports: map<string, Doc>, reportId: string, reporterId: string, reportedId: string,
                          reason: string, otherReason: Option<string>, now: int)
    requires reportId !in reports
    ensures ReportDoc(reporterId, reportedId, reason, otherReason, now) ==
      ReportToDoc(ReportModel(reportId, reporterId, reportedId, reason, otherReason, false, None, now))
    ensures OpenReports(reports[reportId := ReportDoc(reporterId, reportedId, reason, otherReason, now)], reportedId) ==
      OpenReports(reports, reportedId) + {reportId}
    ensures |OpenReports(reports[reportId := ReportDoc(reporterId, reportedId, reason, otherReason, now)], reportedId)| ==
      |OpenReports(reports, reportedId)| + 1
  {
    var d := ReportDoc(reporterId, reportedId, reason, otherReason, now);
    assert GetStr(d, "reportedId") == Some(reportedId) && GetBool(d, "action") == Some(false);
    assert OpenReports(reports[reportId := d], reportedId) == OpenReports(reports, reportedId) + {reportId};
  }

  /** A report that has been acted on (`action` set to true) no longer
      counts towards the threshold, and every other report counts as before. */
  lemma ActionedReportNotCounted(reports: map<string, Doc>, userId: string, reportId: string)
    requires reportId in reports
    ensures OpenReports(reports[reportId := reports[reportId]["action" := Bool(true)]], userId) ==
      OpenReports(reports, userId) - {reportId}
  {
    var d := reports[reportId]["action" := Bool(true)];
    assert GetBool(d, "action") == Some(true);
    assert OpenReports(reports[reportId := d], userId) == OpenReports(reports, userId) - {reportId};
  }

  /** After a threshold check that went through, the stored flag says
      whether the count reached the threshold, whatever it said before, and
      the profile decodes as it did, since `UserModel.init?` does not read
      the flag. */
  lemma SuspensionFlagFollowsCount(users: map<string, Doc>, reports: map<string, Doc>, userId: string)
    requires userId in users
    ensures var after := Updated(users, userId, map["isSuspended" := Bool(|OpenReports(reports, userId)| >= SuspensionThreshold)], Ok);
      GetBool(after[userId], "isSuspended") == Some(|OpenReports(reports, userId)| >= 20)
    ensures var after := Updated(users, userId, map["isSuspended" := Bool(|OpenReports(reports, userId)| >= SuspensionThreshold)], Ok);
      DecodeUser(userId, after[userId]) == DecodeUser(userId, users[userId])
  {
    var flag := Bool(|OpenReports(reports, userId)| >= SuspensionThreshold);
    var after := Updated(users, userId, map["isSuspended" := flag], Ok);
    assert after[userId] == users[userId]["isSuspended" := flag];
    DecodeUserIgnoresOtherFields(userId, users[userId], "isSuspended", flag);
  }
}
