/** Opening another user's profile, `Views/Profile/UserProfileWrapperView.swift`:
    the gates `fetchUser` passes before a profile is shown, and what the
    screen renders from its three state variables. */
module ProfileGate {
  import opened Wrappers
  import opened Documents
  import opened UserModels
  import opened Backend
  import opened Moderation

  const NotAvailable: string := "🚫 This user is not available."
  const NoUserData: string := "No user data found."
  const NotBuildable: string := "User model couldn't be built."
  const Suspended: string := "🚫 This profile has been suspended."

  /** What `body` renders. */
  datatype Screen = Spinner | ErrorText(text: string) | Profile(user: UserModel) | NotFound

  /** `body`: the spinner while loading, else the error, else the profile,
      else "User not found". */
  function Render(isLoading: bool, error: Option<string>, user: Option<UserModel>): (s: Screen)
    ensures s.Profile? ==> !isLoading && error.None? && user == Some(s.user)
    ensures s.Spinner? <==> isLoading
  {
    if isLoading then Spinner
    else if error.Some? then ErrorText("❌ " + error.value)
    else if user.Some? then Profile(user.value)
    else NotFound
  }

  /** The state `fetchUser` leaves: `user`, `isLoading`, `error`. */
  datatype Outcome = Outcome(user: Option<UserModel>, isLoading: bool, error: Option<string>)

  /** The state after `fetchUser`, from the block check's two reads, the
      profile read, and the decoded user's `isSuspended` flag. A gate that
      stops the fetch returns before `isLoading = false`. */
  function FetchOutcome(users: map<string, Doc>, currentId: string, userId: string,
                        meRead: Step, themRead: Step, read: Step, suspended: bool): (o: Outcome)
    // a user or an error, never both and never neither
    ensures o.user.Some? <==> o.error.None?
    ensures o.user.Some? ==> userId in users && o.user == DecodeUser(userId, users[userId]) && !suspended
    ensures o.user.Some? ==> !BlockedBetween(users, currentId, userId, meRead, themRead)
    // loading ends only on success or on a thrown read past the block check
    ensures !o.isLoading <==> o.user.Some? || (!BlockedBetween(users, currentId, userId, meRead, themRead) && read.Failed?)
  {
    if BlockedBetween(users, currentId, userId, meRead, themRead) then Outcome(None, true, Some(NotAvailable))
    else if read.Failed? then Outcome(None, false, Some(read.reason))
    else if userId !in users then Outcome(None, true, Some(NoUserData))
    else if DecodeUser(userId, users[userId]).None? then Outcome(None, true, Some(NotBuildable))
    else if suspended then Outcome(None, true, Some(Suspended))
    else Outcome(DecodeUser(userId, users[userId]), false, None)
  }

  /** `fetchUser` as its messages evidently intend: every exit clears
      `isLoading` (as a `defer` would), so the gate's message reaches the
      screen. */
  function FetchOutcomeIntended(users: map<string, Doc>, currentId: string, userId: string,
                                meRead: Step, themRead: Step, read: Step, suspended: bool): Outcome
  {
    var o := FetchOutcome(users, currentId, userId, meRead, themRead, read, suspended);
    o.(isLoading := false)
  }

  class UserProfileWrapper {
    const userId: string
    var user: Option<UserModel>
    var isLoading: bool
    var error: Option<string>
    const db: Database

    constructor(db: Database, userId: string)
      ensures this.db == db && this.userId == userId
      ensures user.None? && isLoading && error.None?
    {
      this.db := db;
      this.userId := userId;
      user := None;
      isLoading := true;
      error := None;
    }

    /** `fetchUser()`, run for the signed-in `currentId`. */
    method FetchUser(currentId: string, meRead: Step, themRead: Step, read: Step, suspended: bool)
      modifies this
      ensures Outcome(user, isLoading, error) == FetchOutcome(db.store.users, currentId, userId, meRead, themRead, read, suspended)
    {
      isLoading := true;
      error := None;
      user := None;
      var blocked := BlockedBetween(db.store.users, currentId, userId, meRead, themRead);
      if blocked {
        error := Some(NotAvailable);
        return;
      }
      if read.Failed? {
        error := Some(read.reason);
      } else {
        if userId !in db.store.users {
          error := Some(NoUserData);
          return;
        }
        var loadedUser := DecodeUser(userId, db.store.users[userId]);
        if loadedUser.None? {
          error := Some(NotBuildable);
          return;
        }
        if suspended {
          error := Some(Suspended);
          return;
        }
        user := loadedUser;
      }
      isLoading := false;
    }
  }

  // ------------------------------------------------------------ properties

  /** A profile is shown exactly when the pair is not blocked, the read
      succeeded, the document exists and decodes, and the user is not
      suspended; it is then the decoded document. */
  lemma ProfileShownOnlyPastAllGates(users: map<string, Doc>, currentId: string, userId: string,
                                     meRead: Step, themRead: Step, read: Step, suspended: bool)
    ensures var o := FetchOutcome(users, currentId, userId, meRead, themRead, read, suspended);
      var s := Render(o.isLoading, o.error, o.user);
      && (s.Profile? <==>
            && !BlockedBetween(users, currentId, userId, meRead, themRead)
            && read.Ok? && userId in users && HasUserFields(users[userId]) && !suspended)
      && (s.Profile? ==> Some(s.user) == DecodeUser(userId, users[userId]) && s.user.id == userId)
  {
  }

  /** A failed block-check read hides the profile: the check fails closed. */
  lemma FailedBlockCheckHides(users: map<string, Doc>, currentId: string, userId: string,
                              meRead: Step, themRead: Step, read: Step, suspended: bool)
    requires meRead.Failed? || themRead.Failed?
    ensures FetchOutcome(users, currentId, userId, meRead, themRead, read, suspended) == Outcome(None, true, Some(NotAvailable))
  {
  }

  /** Every gate that stops the fetch leaves `isLoading` true, so the screen
      keeps showing the spinner and never the gate's message; only a thrown
      read error reaches the error text. */
  lemma GateFailureKeepsSpinner(users: map<string, Doc>, currentId: string, userId: string,
                                meRead: Step, themRead: Step, read: Step, suspended: bool)
    ensures var o := FetchOutcome(users, currentId, userId, meRead, themRead, read, suspended);
      var blocked := BlockedBetween(users, currentId, userId, meRead, themRead);
      && (o.user.None? ==> o.error.Some?)
      && (Render(o.isLoading, o.error, o.user) == Spinner <==> o.user.None? && (blocked || read.Ok?))
  {
  }

  /** With `isLoading` cleared on every exit, the spinner is gone once the
      fetch ends: the profile shows exactly past all gates, and every gate
      that stops the fetch shows its own message. */
  lemma IntendedGateShowsMessage(users: map<string, Doc>, currentId: string, userId: string,
                                 meRead: Step, themRead: Step, read: Step, suspended: bool)
    ensures var o := FetchOutcomeIntended(users, currentId, userId, meRead, themRead, read, suspended);
      var s := Render(o.isLoading, o.error, o.user);
      var blocked := BlockedBetween(users, currentId, userId, meRead, themRead);
      && !s.Spinner?
      && (blocked ==> s == ErrorText("❌ " + NotAvailable))
      && (!blocked && read.Failed? ==> s == ErrorText("❌ " + read.reason))
      && (!blocked && read.Ok? && userId !in users ==> s == ErrorText("❌ " + NoUserData))
      && (!blocked && read.Ok? && userId in users && !HasUserFields(users[userId]) ==> s == ErrorText("❌ " + NotBuildable))
      && (!blocked && read.Ok? && userId in users && HasUserFields(users[userId]) && suspended ==> s == ErrorText("❌ " + Suspended))
      && (s.Profile? <==> !blocked && read.Ok? && userId in users && HasUserFields(users[userId]) && !suspended)
  {
  }
}
