/** The answers a pooled context gives to the arbiter, and the arbitration policy built on them. */
module Contexts {
  import opened Common

  type ContextId = nat

  const PIN := 1
  const INVALID_AUTH_TYPE := -1

  datatype ContextType =
    | SimpleAuth
    | Enroll
    | Identify
    | WidgetAuth
    | RemoteAuth
    | RemoteAuthInvoker
    | ScheduleHolder
    | CredentialDelete
    | LocalRemoteAuth
    | SudoAuth

  datatype AuthIntent = Default | SudoPinAuth

  datatype PreemptDecision = KeepRunning | StopNow

  /**
   * What never changes about a context. `serial` stands for the identity of the C++ object, so two
   * objects that happen to carry the same id are still two contexts.
   */
  datatype Context = Context(
    serial: nat,
    id: ContextId,
    kind: ContextType,
    primaryFlag: bool,
    caller: string,
    userId: int,
    configuredType: int,
    configuredTypes: seq<int>,
    createTime: int)
  {
    // Enroll, delete and sudo contexts are built as primary ones, identify, invoker and holder
    // contexts are not, and the others carry a flag.
    predicate IsPrimary() {
      match kind
      case Enroll | CredentialDelete | SudoAuth => true
      case Identify | RemoteAuthInvoker | ScheduleHolder => false
      case _ => primaryFlag
    }

    function AuthType(): int {
      match kind
      case SudoAuth => PIN
      case SimpleAuth | RemoteAuth | LocalRemoteAuth => configuredType
      case ScheduleHolder => 0
      case _ => INVALID_AUTH_TYPE
    }

    function AuthTypeList(): seq<int> {
      match kind
      case WidgetAuth => configuredTypes
      case SudoAuth => [PIN]
      case _ => [AuthType()]
    }

    function Intent(): AuthIntent {
      if kind == SudoAuth then SudoPinAuth else Default
    }

    // Only the simple, widget and sudo classes (and the two derived from the simple one) ask the
    // admission policy; every other context may always start.
    predicate CanStart(visible: seq<Context>) {
      match kind
      case SimpleAuth | RemoteAuth | LocalRemoteAuth | WidgetAuth | SudoAuth => PolicyCanStart(this, visible)
      case _ => true
    }

    // `dialogActive` is the sudo context's own bit; no other context reads it.
    function GetPreemptDecision(newcomer: Context, dialogActive: bool): PreemptDecision {
      match kind
      case WidgetAuth => if newcomer.kind == WidgetAuth then StopNow else KeepRunning
      case SudoAuth =>
        if !dialogActive || !newcomer.IsPrimary() then KeepRunning
        else
          var takesOverWindow := newcomer.kind == SudoAuth || newcomer.kind == WidgetAuth;
          var conflictsPinSlot :=
            && newcomer.userId != INVALID_USER_ID
            && newcomer.userId == userId
            && IsAuthContext(newcomer.kind)
            && BearsPin(newcomer);
          if takesOverWindow || conflictsPinSlot then StopNow else KeepRunning
      case _ => KeepRunning
    }
  }

  predicate IsAuthContext(kind: ContextType) {
    kind in {SimpleAuth, WidgetAuth, SudoAuth, RemoteAuth, LocalRemoteAuth}
  }

  predicate BearsPin(c: Context) {
    PIN in c.AuthTypeList()
  }

  predicate BlockedBySudoPinContention(self: Context, predecessor: Context) {
    if self.userId == INVALID_USER_ID || self.userId != predecessor.userId then false
    else if !BearsPin(self) || !BearsPin(predecessor) then false
    else self.Intent() == SudoPinAuth || predecessor.Intent() == SudoPinAuth
  }

  predicate PolicyCanStart(self: Context, visible: seq<Context>) {
    if !self.IsPrimary() || !IsAuthContext(self.kind) then true
    else
      forall p | p in visible && p.IsPrimary() && IsAuthContext(p.kind) ::
        !BlockedBySudoPinContention(self, p)
  }

  predicate IsSameCallerDuplicate(incoming: Context, existing: Context) {
    && incoming.IsPrimary()
    && existing.IsPrimary()
    && incoming.caller == existing.caller
    && incoming.kind == existing.kind
    && incoming.AuthType() == existing.AuthType()
    && incoming.userId == existing.userId
  }

  // ----- What the policy amounts to -----

  /** A primary authentication that may ask for the PIN of user `userId`. */
  predicate UsesPinOf(c: Context, userId: int) {
    c.IsPrimary() && IsAuthContext(c.kind) && BearsPin(c) && c.userId == userId
  }

  /** The lock of the pool: PIN users of one account share it, a sudo request needs it alone. */
  predicate Conflicts(a: Context, b: Context) {
    && a.userId != INVALID_USER_ID
    && UsesPinOf(a, a.userId)
    && UsesPinOf(b, a.userId)
    && (a.kind == SudoAuth || b.kind == SudoAuth)
  }

  /** `newer` puts `older` in its stop plan: it must be strictly younger, and either supersede a
      request of the same caller or be told by `older` to stop it. */
  predicate Collects(newer: Context, older: Context, dialogs: set<Context>) {
    && newer.createTime > older.createTime
    && (IsSameCallerDuplicate(newer, older) ||
        older.GetPreemptDecision(newer, older in dialogs) == StopNow)
  }

  /** Whose PIN a context may ask for, in terms of what it was built with. */
  lemma UsesPinIff(c: Context, userId: int)
    ensures UsesPinOf(c, userId) <==>
            c.userId == userId &&
            (|| c.kind == SudoAuth
             || (c.kind == WidgetAuth && c.primaryFlag && PIN in c.configuredTypes)
             || (c.kind in {SimpleAuth, RemoteAuth, LocalRemoteAuth} && c.primaryFlag && c.configuredType == PIN))
  {
  }

  /** Which requests count as the same one made again, in terms of what they were built with: contexts of
      one kind, caller and user that are primary; of the single-factor authentications, those of one type. */
  lemma SameCallerIff(a: Context, b: Context)
    ensures IsSameCallerDuplicate(a, b) <==>
            a.kind == b.kind && a.caller == b.caller && a.userId == b.userId &&
            (|| a.kind in {Enroll, CredentialDelete, SudoAuth}
             || (a.kind == WidgetAuth && a.primaryFlag && b.primaryFlag)
             || (a.kind in {SimpleAuth, RemoteAuth, LocalRemoteAuth} && a.primaryFlag && b.primaryFlag
                 && a.configuredType == b.configuredType))
  {
  }

  lemma CanStartIffNoConflict(self: Context, visible: seq<Context>)
    ensures self.CanStart(visible) <==> forall p | p in visible :: !Conflicts(self, p)
  {
    if self.IsPrimary() && IsAuthContext(self.kind) {
      forall p | p in visible
        ensures Conflicts(self, p)
           <==> p.IsPrimary() && IsAuthContext(p.kind) && BlockedBySudoPinContention(self, p)
      {
      }
    }
  }

  lemma ConflictIsSymmetric(a: Context, b: Context)
    ensures Conflicts(a, b) == Conflicts(b, a)
  {
  }

  /** Who stops for whom: widgets for widgets, and a sudo context, only while its dialog shows, for any
      primary request that would take its window or that it conflicts with. */
  lemma YieldsIff(newer: Context, older: Context, dialogActive: bool)
    ensures older.GetPreemptDecision(newer, dialogActive) == StopNow <==>
            || (older.kind == WidgetAuth && newer.kind == WidgetAuth)
            || (older.kind == SudoAuth && dialogActive && newer.IsPrimary() &&
                (newer.kind == SudoAuth || newer.kind == WidgetAuth || Conflicts(newer, older)))
  {
  }
}
