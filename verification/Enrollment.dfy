/** The node enrollment controller: a machine install that must not be repeated, driven by the
    status of one Kubernetes object under compare-and-swap, across crashes, lost responses and
    any number of controllers. The object is identified by its UID; its name may be reused. */
module Enrollment {
  import opened Basics

  datatype Phase =
    | Empty | Scanning | AwaitingPreflight | Preflighting | AwaitingApproval
    | Installing | Verifying | Ready | Failed | NeedsReview | Expired

  datatype Action = Scan | Preflight | Join

  /** One stored version of the object; `reference` is the UID of the credential Secret. */
  datatype Object = Object(uid: Id, version: nat, action: Action, phase: Phase, reference: Option<Id>)

  datatype Secret = Secret(uid: Id, owner: Id)

  predicate Terminal(p: Phase) {
    p.Ready? || p.Failed? || p.NeedsReview? || p.Expired?
  }

  /** The order of the phases; the terminal ones share the top, because failing a task rewrites
      whatever it finds. */
  function Rank(p: Phase): nat {
    match p
    case Empty => 0
    case Scanning => 1
    case AwaitingPreflight => 2
    case Preflighting => 3
    case AwaitingApproval => 4
    case Installing => 5
    case Verifying => 6
    case _ => 7
  }

  function Order(a: Action): nat {
    match a case Scan => 0 case Preflight => 1 case Join => 2
  }

  /** The admission rules of the custom resource: actions advance one step, a reference stays. */
  predicate SpecChange(o: Object, action: Action, reference: Option<Id>) {
    && Order(o.action) <= Order(action) <= Order(o.action) + 1
    && (o.reference.Some? ==> reference == o.reference)
    && (action != Scan ==> reference.Some?)
  }

  // ---- What a controller decides --------------------------------------------------------------

  /** Everything a reconciliation looks at besides the object. */
  datatype Surroundings = Surroundings(valid: bool, busy: bool, startup: bool, deleting: bool, expired: bool)

  datatype Decision =
    | Leave
    | Finish(phase: Phase)
    | BeginScan
    | BeginPreflight
    | BeginJoin

  /** The branches of `reconcile`, in its order. */
  function Decide(o: Object, e: Surroundings): Decision {
    if e.deleting || Terminal(o.phase) then Leave
    else if !e.valid then Finish(Failed)
    else if e.busy then Leave
    else if o.phase.Installing? || o.phase.Verifying? then Finish(NeedsReview)
    else if e.startup && o.phase.Preflighting? then Finish(Failed)
    else if o.action.Scan? && !o.phase.AwaitingPreflight? then BeginScan
    else if o.action.Preflight? && o.phase.AwaitingPreflight? then BeginPreflight
    else if o.action.Join? && o.phase.AwaitingApproval? then BeginJoin
    else if o.phase.AwaitingApproval? && e.expired then Finish(Expired)
    else if o.phase.AwaitingPreflight? && e.expired then Finish(Expired)
    else if !(o.phase.AwaitingPreflight? && o.action.Scan?) && !(o.phase.AwaitingApproval? && o.action.Preflight?) then Finish(Failed)
    else Leave
  }

  // ---- The system -----------------------------------------------------------------------------

  /** How far a task got. From `Joined` on it is the one that wrote `Installing`; `Cleaned` is
      the install thread before its first save, `Armed` right before the INSTALL script. */
  datatype Stage = Looking | ScanBegun | PreflightBegun | Joined | Cleaned | Armed | Installed

  datatype Task = Task(stage: Stage, o: Object)

  /** `versions` holds every version ever stored, `owners` every Secret ever created, `approved`
      the UIDs whose preflight allowed joining, `joined` those that reached `Installing`, `installs` the INSTALL scripts started. */
  datatype System = System(
    stored: Option<Object>, secret: Option<Secret>, tasks: map<Id, Task>,
    versions: map<nat, Object>, uids: set<Id>, owners: map<Id, Id>,
    approved: set<Id>, joined: set<Id>, installs: seq<Id>)

  /** The fate of one request: applied and answered, applied with the answer lost, or not applied. */
  datatype Fate = Answered | AnswerLost | Dropped

  /** Compare-and-swap on UID and resourceVersion. */
  predicate Current(s: System, o: Object) {
    s.stored.Some? && s.stored.value.uid == o.uid && s.stored.value.version == o.version
  }

  function Store(s: System, o: Object): System {
    s.(stored := Some(o), versions := s.versions[o.version := o])
  }

  ghost predicate FreshVersion(s: System, v: nat) {
    v !in s.versions
  }

  /** A status write of `phase` on top of the version `o`, with new version `v`. */
  function Written(s: System, o: Object, phase: Phase, v: nat): System
    requires Current(s, o)
  {
    var n := s.stored.value.(phase := phase, version := v);
    var t := Store(s, n);
    if phase.Installing? && !o.phase.Installing? then t.(joined := t.joined + {o.uid}) else t
  }

  function Advance(s: System, id: Id, stage: Stage, o: Object): System {
    s.(tasks := s.tasks[id := Task(stage, o)])
  }

  function End(s: System, id: Id): System {
    s.(tasks := s.tasks - {id})
  }

  /** A task writes a phase: on an answered success it goes on with the stored version, otherwise it ends. */
  function TaskWrite(s: System, id: Id, o: Object, phase: Phase, v: nat, fate: Fate, next: Stage): System {
    if fate.Dropped? || !Current(s, o) then End(s, id)
    else
      var t := Written(s, o, phase, v);
      if fate.Answered? then Advance(t, id, next, t.stored.value) else End(t, id)
  }

  datatype Event =
    // users, cleanup and the cluster
    | CreateObject(uid: Id, action: Action, reference: Option<Id>, version: nat)
    | ChangeSpec(action: Action, reference: Option<Id>, version: nat)
    | DeleteObject
    | CreateSecret(uid: Id, owner: Id)
    | DeleteSecret
    // any controller
    | Look(id: Id)
    | Crash(id: Id)
    | Terminate(o: Object, phase: Phase, version: nat)
    | Reconcile(id: Id, e: Surroundings, version: nat, fate: Fate)
    | ScanDone(id: Id, version: nat, fate: Fate)
    | PreflightDone(id: Id, canJoin: bool, version: nat, fate: Fate)
    | CleanSecret(id: Id, fate: Fate)
    | SaveInstalling(id: Id, version: nat, fate: Fate)
    | Install(id: Id)
    | SaveVerifying(id: Id, version: nat, fate: Fate)

  ghost predicate World(s: System, e: Event, t: System) {
    match e
    case CreateObject(uid, action, reference, v) =>
      && s.stored.None? && uid !in s.uids && FreshVersion(s, v) && (action != Scan ==> reference.Some?)
      && t == Store(s, Object(uid, v, action, Empty, reference)).(uids := s.uids + {uid})
    case ChangeSpec(action, reference, v) =>
      && s.stored.Some? && SpecChange(s.stored.value, action, reference) && FreshVersion(s, v)
      && t == Store(s, s.stored.value.(action := action, reference := reference, version := v))
    case DeleteObject => t == s.(stored := None)
    case CreateSecret(uid, owner) =>
      && s.secret.None? && uid !in s.owners
      && t == s.(secret := Some(Secret(uid, owner)), owners := s.owners[uid := owner])
    case DeleteSecret => t == s.(secret := None)
    case _ => false
  }

  /** Steps of reconciliation. `Terminate` is `fail`, on any version that was ever read. */
  ghost predicate Control(s: System, e: Event, t: System) {
    match e
    case Look(id) => id !in s.tasks && s.stored.Some? && t == Advance(s, id, Looking, s.stored.value)
    case Crash(id) => t == End(s, id)
    case Terminate(o, phase, v) =>
      && o.version in s.versions && s.versions[o.version] == o && Terminal(phase) && FreshVersion(s, v)
      && t == if Current(s, o) then Written(s, o, phase, v) else s
    case Reconcile(id, e, v, fate) =>
      && id in s.tasks && s.tasks[id].stage.Looking? && FreshVersion(s, v)
      && var o := s.tasks[id].o;
      (match Decide(o, e)
       case Leave => t == End(s, id)
       case Finish(phase) => t == End(TaskWrite(s, id, o, phase, v, fate, Looking), id)
       case BeginScan => t == TaskWrite(s, id, o, Scanning, v, fate, ScanBegun)
       case BeginPreflight => t == TaskWrite(s, id, o, Preflighting, v, fate, PreflightBegun)
       case BeginJoin => o.reference.Some? && Owned(s, o) && t == TaskWrite(s, id, o, Installing, v, fate, Joined))
    case ScanDone(id, v, fate) =>
      && id in s.tasks && s.tasks[id].stage.ScanBegun? && FreshVersion(s, v)
      && t == End(TaskWrite(s, id, s.tasks[id].o, AwaitingPreflight, v, fate, Looking), id)
    case PreflightDone(id, canJoin, v, fate) =>
      && id in s.tasks && s.tasks[id].stage.PreflightBegun? && FreshVersion(s, v)
      && t == End(TaskWrite(Preflighted(s, id, canJoin), id, s.tasks[id].o, if canJoin then AwaitingApproval else Failed, v, fate, Looking), id)
    case _ => false
  }

  /** The checks on the machine are done, and they allow joining or not. */
  function Preflighted(s: System, id: Id, canJoin: bool): System
    requires id in s.tasks
  {
    if canJoin then s.(approved := s.approved + {s.tasks[id].o.uid}) else s
  }

  /** `secret` was read before joining: the referenced Secret was made for this object. */
  predicate Owned(s: System, o: Object) {
    o.reference.Some? && o.reference.value in s.owners && s.owners[o.reference.value] == o.uid
  }

  /** `clean_secret` reads the Secret by name and deletes it by UID when it is this object's. */
  function Cleanup(s: System, o: Object): System {
    if s.secret.Some? && s.secret.value.owner == o.uid && (o.reference.Some? ==> s.secret.value.uid == o.reference.value)
    then s.(secret := None) else s
  }

  predicate Executing(p: Phase) {
    p.Installing? || p.Verifying?
  }

  /** Steps from the durable boundary on. A save reads the current object, checks UID and phase,
      and writes on top of what it read. */
  ghost predicate Execute(s: System, e: Event, t: System) {
    match e
    case CleanSecret(id, fate) =>
      && id in s.tasks && s.tasks[id].stage.Joined?
      && var o := s.tasks[id].o;
      t == if fate.Answered? then Advance(Cleanup(s, o), id, Cleaned, o)
           else if fate.AnswerLost? then End(Cleanup(s, o), id)
           else End(s, id)
    case SaveInstalling(id, v, fate) =>
      && id in s.tasks && s.tasks[id].stage.Cleaned? && FreshVersion(s, v)
      && (if s.stored.Some? && s.stored.value.uid == s.tasks[id].o.uid && Executing(s.stored.value.phase)
          then t == TaskWrite(s, id, s.stored.value, Installing, v, fate, Armed)
          else t == End(s, id))
    case Install(id) =>
      && id in s.tasks && s.tasks[id].stage.Armed?
      && t == Advance(s, id, Installed, s.tasks[id].o).(installs := s.installs + [s.tasks[id].o.uid])
    case SaveVerifying(id, v, fate) =>
      && id in s.tasks && s.tasks[id].stage.Installed? && FreshVersion(s, v)
      && (if s.stored.Some? && s.stored.value.uid == s.tasks[id].o.uid && Executing(s.stored.value.phase)
          then t == End(TaskWrite(s, id, s.stored.value, Verifying, v, fate, Looking), id)
          else t == End(s, id))
    case _ => false
  }

  ghost predicate Next(s: System, e: Event, t: System) {
    World(s, e, t) || Control(s, e, t) || Execute(s, e, t)
  }

  const Start := System(None, None, map[], map[], {}, map[], {}, {}, [])

  // ---- The invariant ---------------------------------------------------------------------------

  /** Phases past the scan were reached under the actions that allow them. */
  predicate Earned(o: Object) {
    && (o.phase.Preflighting? || o.phase.AwaitingApproval? ==> Order(o.action) >= 1)
    && (Executing(o.phase) ==> o.action.Join?)
  }

  /** Every version that was read is a version that was stored. */
  ghost predicate Recorded(s: System) {
    && (s.stored.Some? ==> s.stored.value.version in s.versions && s.versions[s.stored.value.version] == s.stored.value && s.stored.value.uid in s.uids)
    && (forall v | v in s.versions :: s.versions[v].version == v && Earned(s.versions[v]))
    && (forall i | i in s.tasks :: s.tasks[i].o.version in s.versions && s.versions[s.tasks[i].o.version] == s.tasks[i].o)
  }

  /** The stage of a task fits the version it holds. */
  predicate StageFits(t: Task) {
    match t.stage
    case Looking => true
    case ScanBegun => t.o.phase.Scanning?
    case PreflightBegun => t.o.phase.Preflighting?
    case _ => t.o.phase.Installing?
  }

  predicate PastBoundary(t: Task) {
    t.stage.Joined? || t.stage.Cleaned? || t.stage.Armed? || t.stage.Installed?
  }

  predicate BeforeInstall(t: Task) {
    t.stage.Joined? || t.stage.Cleaned? || t.stage.Armed?
  }

  /** The boundary is crossed once per UID, by one task. */
  ghost predicate CrossedOnce(s: System) {
    && (s.stored.Some? && Rank(s.stored.value.phase) <= 4 ==> s.stored.value.uid !in s.joined)
    && (forall i | i in s.tasks && PastBoundary(s.tasks[i]) :: s.tasks[i].o.uid in s.joined)
    && (forall i, j | i in s.tasks && j in s.tasks && i != j && PastBoundary(s.tasks[i]) && PastBoundary(s.tasks[j]) :: s.tasks[i].o.uid != s.tasks[j].o.uid)
    && s.joined <= s.uids
    && s.joined <= s.approved && (s.stored.Some? && s.stored.value.phase.AwaitingApproval? ==> s.stored.value.uid in s.approved)
  }

  ghost predicate InstalledOnce(s: System) {
    && (forall i, j | 0 <= i < j < |s.installs| :: s.installs[i] != s.installs[j])
    && (forall u | u in s.installs :: u in s.joined)
    && (forall i | i in s.tasks && BeforeInstall(s.tasks[i]) :: s.tasks[i].o.uid !in s.installs)
    && (forall i | i in s.tasks && s.tasks[i].stage.Installed? :: s.tasks[i].o.uid in s.installs)
    && (s.stored.Some? && s.stored.value.phase.Verifying? ==> s.stored.value.uid in s.installs)
  }

  /** The Secret a task refers to is its object's, and gone once it was cleaned. */
  predicate Gone(s: System, o: Object) {
    o.reference.Some? && o.reference.value in s.owners && (s.secret.Some? ==> s.secret.value.uid != o.reference.value)
  }

  ghost predicate SecretsSound(s: System) {
    && (s.secret.Some? ==> s.secret.value.uid in s.owners && s.owners[s.secret.value.uid] == s.secret.value.owner)
    && (forall i | i in s.tasks && s.tasks[i].stage.Joined? :: Owned(s, s.tasks[i].o))
    && (forall i | i in s.tasks && (s.tasks[i].stage.Cleaned? || s.tasks[i].stage.Armed?) :: Gone(s, s.tasks[i].o))
    && (forall i | i in s.tasks && BeforeInstall(s.tasks[i]) && s.stored.Some? && s.stored.value.uid == s.tasks[i].o.uid ::
          s.stored.value.reference == s.tasks[i].o.reference)
  }

  ghost predicate Safe(s: System) {
    && Recorded(s) && (forall i | i in s.tasks :: StageFits(s.tasks[i]))
    && CrossedOnce(s) && InstalledOnce(s) && SecretsSound(s)
  }

  // ---- Every step keeps it ---------------------------------------------------------------------

  /** Compare-and-swap succeeds only on the very version that was read. */
  lemma SameVersion(s: System, o: Object)
    requires Recorded(s) && Current(s, o) && o.version in s.versions && s.versions[o.version] == o
    ensures s.stored == Some(o)
  {
  }

  /** The writes a controller makes: upwards, and into `Installing` only from an approval. */
  predicate Upward(s: System, o: Object, phase: Phase) {
    && Rank(o.phase) <= Rank(phase) && Earned(o.(phase := phase))
    && (phase.Installing? ==> o.phase.Installing? || o.phase.AwaitingApproval?)
    && (phase.Verifying? ==> o.uid in s.installs)
    && (phase.AwaitingApproval? ==> o.uid in s.approved)
  }

  lemma WrittenKeeps(s: System, o: Object, phase: Phase, v: nat)
    requires Safe(s) && s.stored == Some(o) && FreshVersion(s, v) && Upward(s, o, phase)
    ensures Safe(Written(s, o, phase, v))
  {
    WrittenRecorded(s, o, phase, v);
    WrittenCrossed(s, o, phase, v);
    assert InstalledOnce(Written(s, o, phase, v)) && SecretsSound(Written(s, o, phase, v));
  }

  lemma WrittenRecorded(s: System, o: Object, phase: Phase, v: nat)
    requires Recorded(s) && s.stored == Some(o) && FreshVersion(s, v) && Upward(s, o, phase)
    ensures Recorded(Written(s, o, phase, v))
  {
  }

  lemma WrittenCrossed(s: System, o: Object, phase: Phase, v: nat)
    requires CrossedOnce(s) && s.stored == Some(o) && o.uid in s.uids && Upward(s, o, phase)
    ensures CrossedOnce(Written(s, o, phase, v))
  {
  }

  lemma EndKeeps(s: System, id: Id)
    requires Safe(s)
    ensures Safe(End(s, id))
  {
  }

  /** A task may hold a version at a stage. */
  ghost predicate MayHold(s: System, id: Id, stage: Stage, o: Object) {
    var k := Task(stage, o);
    && o.version in s.versions && s.versions[o.version] == o && StageFits(k)
    && (PastBoundary(k) ==> o.uid in s.joined && forall j | j in s.tasks && j != id && PastBoundary(s.tasks[j]) :: s.tasks[j].o.uid != o.uid)
    && (BeforeInstall(k) ==> o.uid !in s.installs && (s.stored.Some? && s.stored.value.uid == o.uid ==> s.stored.value.reference == o.reference))
    && (stage.Joined? ==> Owned(s, o)) && (stage.Installed? ==> o.uid in s.installs)
    && (stage.Cleaned? || stage.Armed? ==> Gone(s, o))
  }

  lemma AdvanceKeeps(s: System, id: Id, stage: Stage, o: Object)
    requires Safe(s) && MayHold(s, id, stage, o)
    ensures Safe(Advance(s, id, stage, o))
  {
    AdvanceCrossed(s, id, stage, o);
    AdvanceInstalled(s, id, stage, o);
    AdvanceSecrets(s, id, stage, o);
  }

  lemma AdvanceCrossed(s: System, id: Id, stage: Stage, o: Object)
    requires CrossedOnce(s) && MayHold(s, id, stage, o)
    ensures CrossedOnce(Advance(s, id, stage, o))
  {
  }

  lemma AdvanceInstalled(s: System, id: Id, stage: Stage, o: Object)
    requires InstalledOnce(s) && MayHold(s, id, stage, o)
    ensures InstalledOnce(Advance(s, id, stage, o))
  {
  }

  lemma AdvanceSecrets(s: System, id: Id, stage: Stage, o: Object)
    requires SecretsSound(s) && MayHold(s, id, stage, o)
    ensures SecretsSound(Advance(s, id, stage, o))
  {
  }

  lemma TaskWriteKeeps(s: System, id: Id, o: Object, phase: Phase, v: nat, fate: Fate, next: Stage)
    requires Safe(s) && o.version in s.versions && s.versions[o.version] == o && FreshVersion(s, v)
    requires Current(s, o) ==> Upward(s, o, phase) && MayHold(Written(s, o, phase, v), id, next, Written(s, o, phase, v).stored.value)
    ensures Safe(TaskWrite(s, id, o, phase, v, fate, next))
  {
    EndKeeps(s, id);
    if Current(s, o) {
      SameVersion(s, o);
      WrittenKeeps(s, o, phase, v);
      var t := Written(s, o, phase, v);
      EndKeeps(t, id);
      AdvanceKeeps(t, id, next, t.stored.value);
    }
  }

  lemma CreateKeeps(s: System, e: Event, t: System)
    requires Safe(s) && World(s, e, t) && e.CreateObject?
    ensures Safe(t)
  {
    var o := t.stored.value;
    forall i | i in s.tasks ensures s.tasks[i].o.uid in s.uids || !PastBoundary(s.tasks[i]) {
      assert PastBoundary(s.tasks[i]) ==> s.tasks[i].o.uid in s.joined;
    }
    StoreRecorded(s, o, t);
  }

  lemma ChangeKeeps(s: System, e: Event, t: System)
    requires Safe(s) && World(s, e, t) && e.ChangeSpec?
    ensures Safe(t)
  {
    assert Earned(s.versions[s.stored.value.version]);
    StoreRecorded(s, t.stored.value, t);
    ChangeSecrets(s, e, t);
  }

  lemma ChangeSecrets(s: System, e: Event, t: System)
    requires SecretsSound(s) && World(s, e, t) && e.ChangeSpec?
    ensures SecretsSound(t)
  {
    forall i | i in t.tasks && BeforeInstall(t.tasks[i]) && t.stored.value.uid == t.tasks[i].o.uid
      ensures t.stored.value.reference == t.tasks[i].o.reference
    {
      assert s.stored.value.reference == s.tasks[i].o.reference;
      assert s.tasks[i].stage.Joined? ==> Owned(s, s.tasks[i].o);
    }
  }

  lemma StoreRecorded(s: System, o: Object, t: System)
    requires Recorded(s) && FreshVersion(s, o.version) && Earned(o) && o.uid in t.uids
    requires t.stored == Some(o) && t.versions == s.versions[o.version := o] && t.tasks == s.tasks
    ensures Recorded(t)
  {
  }

  lemma DropKeeps(s: System, e: Event, t: System)
    requires Safe(s) && World(s, e, t) && (e.DeleteObject? || e.DeleteSecret? || e.CreateSecret?)
    ensures Safe(t)
  {
    DropSecrets(s, e, t);
  }

  lemma DropSecrets(s: System, e: Event, t: System)
    requires SecretsSound(s) && World(s, e, t) && (e.DeleteObject? || e.DeleteSecret? || e.CreateSecret?)
    ensures SecretsSound(t)
  {
  }

  lemma WorldKeeps(s: System, e: Event, t: System)
    requires Safe(s) && World(s, e, t)
    ensures Safe(t)
  {
    if e.CreateObject? {
      CreateKeeps(s, e, t);
    } else if e.ChangeSpec? {
      ChangeKeeps(s, e, t);
    } else {
      DropKeeps(s, e, t);
    }
  }

  /** No branch of `reconcile` writes a lower phase, because actions only advance. */
  lemma DecisionsGoUp(s: System, o: Object, e: Surroundings)
    requires Earned(o)
    ensures match Decide(o, e)
            case Leave => true
            case Finish(phase) => Terminal(phase) && Upward(s, o, phase)
            case BeginScan => Upward(s, o, Scanning)
            case BeginPreflight => Upward(s, o, Preflighting)
            case BeginJoin => Upward(s, o, Installing) && o.phase.AwaitingApproval?
  {
  }

  lemma BeginKeeps(s: System, id: Id, o: Object, phase: Phase, v: nat, fate: Fate, next: Stage)
    requires Safe(s) && o.version in s.versions && s.versions[o.version] == o && FreshVersion(s, v) && Upward(s, o, phase)
    requires !PastBoundary(Task(next, o)) && StageFits(Task(next, o.(phase := phase)))
    ensures Safe(TaskWrite(s, id, o, phase, v, fate, next))
  {
    if Current(s, o) {
      SameVersion(s, o);
    }
    TaskWriteKeeps(s, id, o, phase, v, fate, next);
  }

  lemma JoinKeeps(s: System, id: Id, o: Object, v: nat, fate: Fate)
    requires Safe(s) && o.version in s.versions && s.versions[o.version] == o && FreshVersion(s, v) && Upward(s, o, Installing)
    requires o.phase.AwaitingApproval? && Owned(s, o)
    ensures Safe(TaskWrite(s, id, o, Installing, v, fate, Joined))
  {
    if Current(s, o) {
      SameVersion(s, o);
      assert o.uid !in s.joined;
    }
    TaskWriteKeeps(s, id, o, Installing, v, fate, Joined);
  }

  lemma ReconcileKeeps(s: System, id: Id, e: Surroundings, v: nat, fate: Fate, t: System)
    requires Safe(s) && Control(s, Reconcile(id, e, v, fate), t)
    ensures Safe(t)
  {
    var o := s.tasks[id].o;
    assert s.versions[o.version] == o && Earned(o);
    DecisionsGoUp(s, o, e);
    match Decide(o, e)
    case Leave => EndKeeps(s, id);
    case Finish(phase) =>
      BeginKeeps(s, id, o, phase, v, fate, Looking);
      EndKeeps(TaskWrite(s, id, o, phase, v, fate, Looking), id);
    case BeginScan => BeginKeeps(s, id, o, Scanning, v, fate, ScanBegun);
    case BeginPreflight => BeginKeeps(s, id, o, Preflighting, v, fate, PreflightBegun);
    case BeginJoin => JoinKeeps(s, id, o, v, fate);
  }

  lemma ControlKeeps(s: System, e: Event, t: System)
    requires Safe(s) && Control(s, e, t)
    ensures Safe(t)
  {
    match e
    case Look(id) => AdvanceKeeps(s, id, Looking, s.stored.value);
    case Crash(id) => EndKeeps(s, id);
    case Terminate(o, phase, v) =>
      if Current(s, o) {
        SameVersion(s, o);
        WrittenKeeps(s, o, phase, v);
      }
    case Reconcile(id, f, v, fate) => ReconcileKeeps(s, id, f, v, fate, t);
    case ScanDone(id, v, fate) => DoneKeeps(s, id, AwaitingPreflight, v, fate);
    case PreflightDone(id, canJoin, v, fate) =>
      PreflightedKeeps(s, id, canJoin);
      DoneKeeps(Preflighted(s, id, canJoin), id, if canJoin then AwaitingApproval else Failed, v, fate);
  }

  lemma PreflightedKeeps(s: System, id: Id, canJoin: bool)
    requires Safe(s) && id in s.tasks
    ensures Safe(Preflighted(s, id, canJoin))
  {
  }

  lemma DoneKeeps(s: System, id: Id, phase: Phase, v: nat, fate: Fate)
    requires Safe(s) && id in s.tasks && FreshVersion(s, v)
    requires if s.tasks[id].stage.ScanBegun? then phase.AwaitingPreflight? else s.tasks[id].stage.PreflightBegun? && (phase.Failed? || (phase.AwaitingApproval? && s.tasks[id].o.uid in s.approved))
    ensures Safe(End(TaskWrite(s, id, s.tasks[id].o, phase, v, fate, Looking), id))
  {
    var o := s.tasks[id].o;
    assert StageFits(s.tasks[id]) && s.versions[o.version] == o && Earned(o);
    BeginKeeps(s, id, o, phase, v, fate, Looking);
    EndKeeps(TaskWrite(s, id, o, phase, v, fate, Looking), id);
  }

  lemma CleanKeeps(s: System, id: Id, fate: Fate, t: System)
    requires Safe(s) && Execute(s, CleanSecret(id, fate), t)
    ensures Safe(t)
  {
    var o := s.tasks[id].o;
    assert Owned(s, o);
    var m := Cleanup(s, o);
    assert Safe(m);
    EndKeeps(s, id);
    EndKeeps(m, id);
    assert Gone(m, o);
    AdvanceKeeps(m, id, Cleaned, o);
  }

  lemma SaveKeeps(s: System, id: Id, v: nat, fate: Fate, t: System)
    requires Safe(s) && Execute(s, SaveInstalling(id, v, fate), t)
    ensures Safe(t)
  {
    EndKeeps(s, id);
    if s.stored.Some? && s.stored.value.uid == s.tasks[id].o.uid && Executing(s.stored.value.phase) {
      var o := s.stored.value;
      assert o.phase.Installing?;
      assert Gone(s, s.tasks[id].o);
      TaskWriteKeeps(s, id, o, Installing, v, fate, Armed);
    }
  }

  lemma InstallKeeps(s: System, id: Id, t: System)
    requires Safe(s) && Execute(s, Install(id), t)
    ensures Safe(t)
  {
    InstallCounts(s, id, t);
    InstallCrossed(s, id, t);
    assert SecretsSound(t);
  }

  lemma InstallCounts(s: System, id: Id, t: System)
    requires CrossedOnce(s) && InstalledOnce(s) && Execute(s, Install(id), t)
    ensures InstalledOnce(t)
  {
    var u := s.tasks[id].o.uid;
    assert u in s.joined && u !in s.installs;
    forall x ensures x in t.installs <==> x in s.installs || x == u {
      assert t.installs == s.installs + [u];
    }
  }

  lemma InstallCrossed(s: System, id: Id, t: System)
    requires CrossedOnce(s) && Recorded(s) && Execute(s, Install(id), t)
    ensures CrossedOnce(t) && Recorded(t)
  {
  }

  lemma ExecuteKeeps(s: System, e: Event, t: System)
    requires Safe(s) && Execute(s, e, t)
    ensures Safe(t)
  {
    match e
    case CleanSecret(id, fate) => CleanKeeps(s, id, fate, t);
    case SaveInstalling(id, v, fate) => SaveKeeps(s, id, v, fate, t);
    case Install(id) => InstallKeeps(s, id, t);
    case SaveVerifying(id, v, fate) =>
      EndKeeps(s, id);
      if s.stored.Some? && s.stored.value.uid == s.tasks[id].o.uid && Executing(s.stored.value.phase) {
        TaskWriteKeeps(s, id, s.stored.value, Verifying, v, fate, Looking);
        EndKeeps(TaskWrite(s, id, s.stored.value, Verifying, v, fate, Looking), id);
      }
  }

  // ---- Every run -------------------------------------------------------------------------------

  lemma NextKeeps(s: System, e: Event, t: System)
    requires Safe(s) && Next(s, e, t)
    ensures Safe(t)
  {
    if World(s, e, t) {
      WorldKeeps(s, e, t);
    } else if Control(s, e, t) {
      ControlKeeps(s, e, t);
    } else {
      ExecuteKeeps(s, e, t);
    }
  }

  ghost predicate IsRun(ss: seq<System>, es: seq<Event>) {
    |ss| == |es| + 1 && ss[0] == Start && forall i | 0 <= i < |es| :: Next(ss[i], es[i], ss[i + 1])
  }

  lemma {:induction false} RunIsSafe(ss: seq<System>, es: seq<Event>, i: nat)
    requires IsRun(ss, es) && i < |ss|
    ensures Safe(ss[i])
  {
    if i > 0 {
      RunIsSafe(ss, es, i - 1);
      NextKeeps(ss[i - 1], es[i - 1], ss[i]);
    }
  }

  /** Over every run the INSTALL script starts at most once for each UID. */
  lemma InstallStartsAtMostOnce(ss: seq<System>, es: seq<Event>, i: nat, a: nat, b: nat)
    requires IsRun(ss, es) && i < |ss| && a < b < |ss[i].installs|
    ensures ss[i].installs[a] != ss[i].installs[b]
  {
    RunIsSafe(ss, es, i);
  }

  /** When it starts, the Secret the object refers to is gone. */
  lemma SecretIsGoneAtInstall(ss: seq<System>, es: seq<Event>, i: nat)
    requires IsRun(ss, es) && i < |es| && es[i].Install?
    ensures es[i].id in ss[i].tasks
    ensures var o := ss[i].tasks[es[i].id].o;
            o.reference.Some? && (ss[i].secret.Some? ==> ss[i].secret.value.uid != o.reference.value)
            && (ss[i].stored.Some? && ss[i].stored.value.uid == o.uid ==> ss[i].stored.value.reference == o.reference)
  {
    RunIsSafe(ss, es, i);
    assert Execute(ss[i], es[i], ss[i + 1]);
    assert Gone(ss[i], ss[i].tasks[es[i].id].o);
  }

  /** A preflight of this object that allowed joining. */
  ghost predicate AllowedBy(ss: seq<System>, es: seq<Event>, j: nat, uid: Id) {
    && j < |es| && j < |ss| && es[j].PreflightDone? && es[j].canJoin && es[j].id in ss[j].tasks
    && ss[j].tasks[es[j].id].stage.PreflightBegun? && ss[j].tasks[es[j].id].o.uid == uid
  }

  lemma ApprovalStep(s: System, e: Event, t: System, uid: Id)
    requires Next(s, e, t) && uid in t.approved && uid !in s.approved
    ensures e.PreflightDone? && e.canJoin && e.id in s.tasks && s.tasks[e.id].stage.PreflightBegun? && s.tasks[e.id].o.uid == uid
  {
  }

  lemma {:induction false} ApprovalCame(ss: seq<System>, es: seq<Event>, i: nat, uid: Id) returns (j: nat)
    requires IsRun(ss, es) && i < |ss| && uid in ss[i].approved
    ensures j < i && AllowedBy(ss, es, j, uid)
  {
    if uid in ss[i - 1].approved {
      j := ApprovalCame(ss, es, i - 1, uid);
    } else {
      ApprovalStep(ss[i - 1], es[i - 1], ss[i], uid);
      j := i - 1;
    }
  }

  // ---- A run that installs ---------------------------------------------------------------------

  const Calm := Surroundings(true, false, false, false, false)

  /** An idle moment: no task runs, and no version above the stored one exists. */
  ghost predicate Idle(t: System, o: Object) {
    Reachable(t) && t.tasks == map[] && t.stored == Some(o) && t.installs == [] && forall v | v in t.versions :: v <= o.version
  }

  /** A task that just wrote the stored version. */
  ghost predicate Working(t: System, stage: Stage, o: Object) {
    && Reachable(t) && t.tasks == map[10 := Task(stage, o)] && t.stored == Some(o) && t.installs == [] && forall v | v in t.versions :: v <= o.version
  }

  lemma ObjectAppears() returns (t: System)
    ensures Idle(t, Object(1, 0, Scan, Empty, None)) && t.secret == None && t.owners == map[]
  {
    StartReachable();
    t := Store(Start, Object(1, 0, Scan, Empty, None)).(uids := {1});
    Onward(Start, CreateObject(1, Scan, None, 0), t);
  }

  /** A reconciliation of an idle object that begins something. */
  lemma WorkBegins(s: System, o: Object, phase: Phase, stage: Stage) returns (t: System)
    requires Idle(s, o) && Earned(o)
    requires match Decide(o, Calm)
             case BeginScan => phase == Scanning && stage == ScanBegun
             case BeginPreflight => phase == Preflighting && stage == PreflightBegun
             case BeginJoin => phase == Installing && stage == Joined && Owned(s, o)
             case _ => false
    ensures Working(t, stage, o.(phase := phase, version := o.version + 1)) && t.secret == s.secret && t.owners == s.owners
  {
    var m := Advance(s, 10, Looking, o);
    Onward(s, Look(10), m);
    t := TaskWrite(m, 10, o, phase, o.version + 1, Answered, stage);
    Onward(m, Reconcile(10, Calm, o.version + 1, Answered), t);
  }

  lemma SpecChanges(s: System, o: Object, action: Action, reference: Option<Id>) returns (t: System)
    requires Idle(s, o) && SpecChange(o, action, reference)
    ensures Idle(t, o.(action := action, reference := reference, version := o.version + 1)) && t.secret == s.secret && t.owners == s.owners
  {
    t := Store(s, o.(action := action, reference := reference, version := o.version + 1));
    Onward(s, ChangeSpec(action, reference, o.version + 1), t);
  }

  lemma ScanHappens() returns (t: System)
    ensures Idle(t, Object(1, 2, Scan, AwaitingPreflight, None)) && t.secret == None && t.owners == map[]
  {
    var s := ObjectAppears();
    var m := WorkBegins(s, Object(1, 0, Scan, Empty, None), Scanning, ScanBegun);
    t := End(TaskWrite(m, 10, m.tasks[10].o, AwaitingPreflight, 2, Answered, Looking), 10);
    Onward(m, ScanDone(10, 2, Answered), t);
    assert t.tasks == map[];
  }

  lemma CredentialsAppear() returns (t: System)
    ensures Idle(t, Object(1, 3, Preflight, AwaitingPreflight, Some(7))) && t.secret == Some(Secret(7, 1)) && t.owners == map[7 := 1]
  {
    var s := ScanHappens();
    var m := s.(secret := Some(Secret(7, 1)), owners := s.owners[7 := 1]);
    Onward(s, CreateSecret(7, 1), m);
    t := SpecChanges(m, Object(1, 2, Scan, AwaitingPreflight, None), Preflight, Some(7));
  }

  lemma ApprovalHappens() returns (t: System)
    ensures Idle(t, Object(1, 5, Preflight, AwaitingApproval, Some(7))) && t.secret == Some(Secret(7, 1)) && t.owners == map[7 := 1]
  {
    var s := CredentialsAppear();
    var m := WorkBegins(s, Object(1, 3, Preflight, AwaitingPreflight, Some(7)), Preflighting, PreflightBegun);
    t := End(TaskWrite(Preflighted(m, 10, true), 10, m.tasks[10].o, AwaitingApproval, 5, Answered, Looking), 10);
    Onward(m, PreflightDone(10, true, 5, Answered), t);
    assert t.tasks == map[];
  }

  lemma JoinHappens() returns (t: System)
    ensures Working(t, Joined, Object(1, 7, Join, Installing, Some(7))) && t.secret == Some(Secret(7, 1)) && t.owners == map[7 := 1]
  {
    var s := ApprovalHappens();
    var m := SpecChanges(s, Object(1, 5, Preflight, AwaitingApproval, Some(7)), Join, Some(7));
    t := WorkBegins(m, Object(1, 6, Join, AwaitingApproval, Some(7)), Installing, Joined);
  }

  /** The protocol does not only forbid: a run reaches INSTALL. */
  lemma InstallHappens() returns (t: System)
    ensures Reachable(t) && t.installs == [1]
  {
    var s := JoinHappens();
    var o := s.tasks[10].o;
    var m := Advance(Cleanup(s, o), 10, Cleaned, o);
    Onward(s, CleanSecret(10, Answered), m);
    var n := TaskWrite(m, 10, o, Installing, 8, Answered, Armed);
    Onward(m, SaveInstalling(10, 8, Answered), n);
    t := Advance(n, 10, Installed, n.tasks[10].o).(installs := n.installs + [n.tasks[10].o.uid]);
    Onward(n, Install(10), t);
  }

  ghost predicate Reachable(t: System) {
    exists ss, es :: IsRun(ss, es) && ss[|ss| - 1] == t
  }

  lemma StartReachable()
    ensures Reachable(Start)
  {
    assert IsRun([Start], []);
  }

  lemma Onward(s: System, e: Event, t: System)
    requires Reachable(s) && Next(s, e, t)
    ensures Reachable(t)
  {
    var ss, es :| IsRun(ss, es) && ss[|ss| - 1] == s;
    assert IsRun(ss + [t], es + [e]);
  }

  /** INSTALL starts only for an object whose preflight allowed joining, and whose action is Join. */
  lemma InstallNeedsApproval(ss: seq<System>, es: seq<Event>, i: nat) returns (j: nat)
    requires IsRun(ss, es) && i < |es| && es[i].Install?
    ensures es[i].id in ss[i].tasks && ss[i].tasks[es[i].id].o.action == Join
    ensures j < i && AllowedBy(ss, es, j, ss[i].tasks[es[i].id].o.uid)
  {
    RunIsSafe(ss, es, i);
    assert Execute(ss[i], es[i], ss[i + 1]);
    var k := ss[i].tasks[es[i].id];
    assert k.o.uid in ss[i].joined && StageFits(k) && Earned(k.o);
    j := ApprovalCame(ss, es, i, k.o.uid);
  }

  /** What a reconciliation begins, exactly. */
  lemma DecisionTable(o: Object, e: Surroundings)
    requires Earned(o)
    ensures var able := e.valid && !e.busy && !e.deleting;
            && (Decide(o, e) == BeginScan <==> able && o.action == Scan && (o.phase == Empty || o.phase == Scanning))
            && (Decide(o, e) == BeginPreflight <==> able && o.action == Preflight && o.phase == AwaitingPreflight)
            && (Decide(o, e) == BeginJoin <==> able && o.action == Join && o.phase == AwaitingApproval)
            && (Decide(o, e) == Finish(NeedsReview) <==> able && (o.phase == Installing || o.phase == Verifying))
            && (Decide(o, e) == Finish(Expired) <==>
                  able && e.expired && ((o.phase == AwaitingApproval && o.action == Preflight) || (o.phase == AwaitingPreflight && o.action != Preflight)))
            && (Decide(o, e) == Finish(Failed) <==>
                  && !e.deleting && Rank(o.phase) < 7
                  && (!e.valid || (able && (o.phase == Preflighting || (Rank(o.phase) <= 1 && o.action != Scan) || (o.phase == AwaitingPreflight && o.action == Join && !e.expired)))))
  {
  }

  ghost predicate NotLower(s: System, t: System) {
    s.stored.Some? && t.stored.Some? && s.stored.value.uid == t.stored.value.uid ==> Rank(s.stored.value.phase) <= Rank(t.stored.value.phase)
  }

  lemma WriteNotLower(s: System, id: Id, o: Object, phase: Phase, v: nat, fate: Fate, next: Stage)
    requires Recorded(s) && o.version in s.versions && s.versions[o.version] == o && Rank(o.phase) <= Rank(phase)
    ensures NotLower(s, TaskWrite(s, id, o, phase, v, fate, next))
    ensures NotLower(s, End(TaskWrite(s, id, o, phase, v, fate, next), id))
  {
    if Current(s, o) {
      SameVersion(s, o);
    }
  }

  lemma ControlNotLower(s: System, e: Event, t: System)
    requires Safe(s) && Control(s, e, t)
    ensures NotLower(s, t)
  {
    match e
    case Terminate(o, phase, v) =>
      if Current(s, o) {
        SameVersion(s, o);
      }
    case ScanDone(id, v, fate) =>
      assert StageFits(s.tasks[id]);
      WriteNotLower(s, id, s.tasks[id].o, AwaitingPreflight, v, fate, Looking);
    case PreflightDone(id, canJoin, v, fate) =>
      assert StageFits(s.tasks[id]);
      WriteNotLower(Preflighted(s, id, canJoin), id, s.tasks[id].o, if canJoin then AwaitingApproval else Failed, v, fate, Looking);
    case Reconcile(id, f, v, fate) =>
      ReconcileNotLower(s, id, f, v, fate, t);
    case _ =>
  }

  lemma ReconcileNotLower(s: System, id: Id, e: Surroundings, v: nat, fate: Fate, t: System)
    requires Safe(s) && Control(s, Reconcile(id, e, v, fate), t)
    ensures NotLower(s, t)
  {
    var o := s.tasks[id].o;
    assert s.versions[o.version] == o && Earned(o);
    DecisionsGoUp(s, o, e);
    match Decide(o, e)
    case Leave =>
    case Finish(phase) => WriteNotLower(s, id, o, phase, v, fate, Looking);
    case BeginScan => WriteNotLower(s, id, o, Scanning, v, fate, ScanBegun);
    case BeginPreflight => WriteNotLower(s, id, o, Preflighting, v, fate, PreflightBegun);
    case BeginJoin => WriteNotLower(s, id, o, Installing, v, fate, Joined);
  }

  lemma ExecuteNotLower(s: System, e: Event, t: System)
    requires Safe(s) && Execute(s, e, t)
    ensures NotLower(s, t)
  {
    if e.SaveInstalling? {
      assert s.stored.Some? && s.stored.value.phase.Verifying? ==> s.stored.value.uid != s.tasks[e.id].o.uid;
    }
  }

  /** The phase of an object never falls, in any step of any run. */
  lemma PhaseNeverFalls(ss: seq<System>, es: seq<Event>, i: nat)
    requires IsRun(ss, es) && i < |es|
    ensures NotLower(ss[i], ss[i + 1])
  {
    RunIsSafe(ss, es, i);
    if World(ss[i], es[i], ss[i + 1]) {
    } else if Control(ss[i], es[i], ss[i + 1]) {
      ControlNotLower(ss[i], es[i], ss[i + 1]);
    } else {
      ExecuteNotLower(ss[i], es[i], ss[i + 1]);
    }
  }
}
