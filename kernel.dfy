// The kernel orchestrator (src/kernel/index.ts): the boot and shutdown sequences over the file
// system and the process manager, the user records, and the health rules of the diagnostics.
// The store's 'users' collection is a map from user id to record; `new Date()` and `Date.now()`
// are the `now` parameter. Opening the store (`storage.initialize`) cannot fail in this model.
module Kernel {
  import opened Wrappers
  import opened Seqs
  import opened Text
  import opened KernelTypes
  import opened VfsPermissions
  import opened FileSystem
  import opened Processes

  datatype KernelError = FsFailed(fs: FsError) | PmFailed(pm: PmError)

  // ---------------------------------------------------------------------------
  // Users
  // ---------------------------------------------------------------------------

  /** `userId || 'demo-user'`: a missing or empty id boots the demo user. */
  function BootUserId(userId: Option<string>): (r: string)
    ensures r != ""
    ensures userId.Some? && userId.value != "" ==> r == userId.value
    ensures userId.None? || userId.value == "" ==> r == "demo-user"
  {
    if userId.Some? && userId.value != "" then userId.value else "demo-user"
  }

  /** `userId.charAt(0).toUpperCase() + userId.slice(1)`. */
  function DisplayName(id: string): string {
    if |id| == 0 then "" else [UpperChar(id[0])] + id[1..]
  }

  /** The display name differs from the id only in the case of its first letter. */
  lemma DisplayNameShape(id: string)
    ensures |DisplayName(id)| == |id|
    ensures |id| > 0 ==> DisplayName(id)[1..] == id[1..] && DisplayName(id)[0] == UpperChar(id[0])
    ensures Lower(DisplayName(id)) == Lower(id)
  {
    var d := DisplayName(id);
    if |id| > 0 {
      assert d[1..] == id[1..];
      forall i | 0 <= i < |id| ensures LowerChar(d[i]) == LowerChar(id[i]) {
        if i > 0 {
          assert d[i] == d[1..][i - 1] == id[1..][i - 1] == id[i];
        }
      }
    }
  }

  /** loadUser's new record: username and id alike, the default preferences, seen now. */
  function NewUser(id: string, now: int): (u: User)
    ensures u.id == id && u.username == id && u.displayName == DisplayName(id)
    ensures u.role == "user" && u.reputation == 0 && u.joinedAt == now && u.lastSeenAt == now
  {
    User(id, id, DisplayName(id), "\U{1F464}", None, "user", 0, now, now,
         Preferences("dark", "en", true, Privacy("public", true, true)))
  }

  /** Every stored user sits under its own id. */
  ghost predicate UsersKeyed(users: map<string, User>) {
    forall k :: k in users ==> users[k].id == k
  }

  /** A store with no records has no `/home`, so a new user's home directory cannot be created. */
  lemma NoHomeOnEmptyStore(user: string, id: NodeId, name: string, perms: Option<FilePermissions>, now: int)
    ensures CreateEffect(map[], map[], user, id, "/home", name, DirectoryKind([]), perms, now).0
      == Err(ParentNotFound("/home"))
  {
    assert PathIndex(map[], "/home").None?;
  }

  /** Nor a root, so initialize fails too. */
  lemma NoRootOnEmptyStore()
    ensures Resolve(map[], map[], "/").None?
  {
    assert PathIndex(map[], "/").None?;
  }

  // ---------------------------------------------------------------------------
  // System services
  // ---------------------------------------------------------------------------

  function StorageMonitor(): MetadataPatch {
    MetadataPatch(None, None, Some(["system.admin"]), Some(map["interval" := Num(60000)]))
  }

  function ProcessSupervisor(): MetadataPatch {
    MetadataPatch(None, None, Some(["system.admin"]), Some(map["cleanupInterval" := Num(300000)]))
  }

  /**
   * The process table, order and store once both services are spawned with the next free pids:
   * the storage monitor first, then the process supervisor, both without a parent.
   */
  function ServicesUp(table: Table, order: seq<Pid>, stored: Store, nextPid: Pid, now: int): (Table, seq<Pid>, Store) {
    var monitor := NewProcess(nextPid, "storage-monitor", ServiceProcess, StorageMonitor(), None, now);
    var supervisor := NewProcess(nextPid + 1, "process-supervisor", ServiceProcess, ProcessSupervisor(), None, now);
    (table[nextPid := monitor][nextPid + 1 := supervisor], order + [nextPid, nextPid + 1],
     stored[nextPid := monitor][nextPid + 1 := supervisor])
  }

  // ---------------------------------------------------------------------------
  // Statistics and diagnostics
  // ---------------------------------------------------------------------------

  /** Last seen less than five minutes before `now`. */
  predicate ActiveAt(u: User, now: int) {
    now - u.lastSeenAt < 300000
  }

  function IsActive(now: int): User -> bool {
    (u: User) => ActiveAt(u, now)
  }

  /** getSystemStats' `activeUsers`. */
  function ActiveUserCount(all: seq<User>, now: int): (r: nat)
    ensures r <= |all|
  {
    |Filter(all, IsActive(now))|
  }

  /** Every user seen in the last five minutes counts once, and nobody else. */
  lemma {:induction false} ActiveUserCountExact(all: seq<User>, now: int, u: User)
    ensures ActiveUserCount(all + [u], now) == ActiveUserCount(all, now) + (if ActiveAt(u, now) then 1 else 0)
    ensures (forall i :: 0 <= i < |all| ==> ActiveAt(all[i], now)) ==> ActiveUserCount(all, now) == |all|
    ensures (forall i :: 0 <= i < |all| ==> !ActiveAt(all[i], now)) ==> ActiveUserCount(all, now) == 0
  {
    FilterAppend(all, [u], IsActive(now));
    assert Filter([u], IsActive(now)) == (if ActiveAt(u, now) then [u] else []) + Filter([u][1..], IsActive(now));
    if forall i :: 0 <= i < |all| ==> ActiveAt(all[i], now) {
      FilterKeepsAll(all, IsActive(now));
    }
    if forall i :: 0 <= i < |all| ==> !ActiveAt(all[i], now) {
      FilterDropsAll(all, IsActive(now));
    }
  }

  datatype Health = Healthy | Warning | Critical

  /**
   * `num / den > t` for the counts the diagnostics divide. A zero quota makes the storage ratio
   * Infinity when something is used and NaN when nothing is, so it is above every threshold in
   * the first case and above none in the second; that is what `num > t * den` says too.
   */
  predicate Above(num: nat, den: nat, t: real) {
    num as real > t * den as real
  }

  /**
   * JavaScript's `num / den > t` on counts: the quotient compared, where a zero denominator
   * gives Infinity, or NaN (which compares false) when the numerator is zero too.
   */
  predicate RatioExceeds(num: nat, den: nat, t: real) {
    if den == 0 then num > 0 else num as real / den as real > t
  }

  /** The cross-multiplied comparison is the quotient comparison. */
  lemma AboveIsRatio(num: nat, den: nat, t: real)
    ensures Above(num, den, t) <==> RatioExceeds(num, den, t)
  {
    if den > 0 {
      var q := num as real / den as real;
      assert q * den as real == num as real;
      assert q > t <==> q * den as real > t * den as real;
    }
  }

  /** runDiagnostics' overall health, from the stored bytes and the process counts. */
  function Overall(used: nat, quota: nat, crashed: nat, total: nat): (r: Health)
    ensures var processDen := if total > 1 then total else 1;
      && (r == Critical <==> RatioExceeds(used, quota, 0.9) || RatioExceeds(crashed, processDen, 0.3))
      && (r == Warning <==> !(RatioExceeds(used, quota, 0.9) || RatioExceeds(crashed, processDen, 0.3))
                            && (RatioExceeds(used, quota, 0.7) || RatioExceeds(crashed, processDen, 0.1)))
  {
    var processDen := if total > 1 then total else 1;
    AboveIsRatio(used, quota, 0.9);
    AboveIsRatio(used, quota, 0.7);
    AboveIsRatio(crashed, processDen, 0.3);
    AboveIsRatio(crashed, processDen, 0.1);
    if Above(used, quota, 0.9) || Above(crashed, processDen, 0.3) then Critical
    else if Above(used, quota, 0.7) || Above(crashed, processDen, 0.1) then Warning
    else Healthy
  }

  function Severity(h: Health): nat {
    match h
    case Healthy => 0
    case Warning => 1
    case Critical => 2
  }

  /** More crashed processes, or more bytes used, never make the health better. */
  lemma OverallMonotone(used: nat, used': nat, quota: nat, crashed: nat, crashed': nat, total: nat)
    requires used <= used' && crashed <= crashed'
    ensures Severity(Overall(used, quota, crashed, total)) <= Severity(Overall(used', quota, crashed', total))
  {
  }

  /** With no processes the denominator is 1: one crashed record makes the system critical. */
  lemma NoProcessesNoDivision(used: nat, quota: nat)
    ensures Overall(used, quota, 0, 0) == Overall(used, quota, 0, 1)
    ensures Overall(0, quota, 1, 0) == Critical
  {
  }

  /** The store stands empty: nothing used and no processes is healthy, whatever the quota. */
  lemma EmptyIsHealthy(quota: nat)
    ensures Overall(0, quota, 0, 0) == Healthy
  {
  }

  // ---------------------------------------------------------------------------
  // The kernel
  // ---------------------------------------------------------------------------

  class KernelState {
    var bootTime: Option<int>
    var currentUser: Option<User>
    var isBooted: bool
    /** The store's 'users' collection. */
    var users: map<string, User>

    ghost predicate Valid()
      reads this
    {
      UsersKeyed(users)
    }

    constructor(saved: map<string, User>)
      requires UsersKeyed(saved)
      ensures Valid() && bootTime == None && currentUser == None && !isBooted && users == saved
    {
      bootTime := None;
      currentUser := None;
      isBooted := false;
      users := saved;
    }

    /** getUptime. */
    function GetUptime(now: int): (r: int)
      reads this
      ensures bootTime.None? ==> r == 0
      ensures bootTime.Some? ==> r + bootTime.value == now
    {
      if bootTime.Some? then now - bootTime.value else 0
    }

    /**
     * loadUser: a stored user is adopted; a new one is saved first and then its home directory
     * is created under `/home` with owner-only permissions, which can fail.
     */
    method LoadUser(vfs: VirtualFileSystem, userId: string, now: int) returns (r: Outcome<FsError>)
      requires Valid() && vfs.Valid()
      modifies this`users, this`currentUser, vfs`files, vfs`cache, vfs`nextId, vfs`currentUserId
      ensures Valid() && vfs.Valid()
      ensures userId in old(users) ==>
        && r == Pass && users == old(users) && currentUser == Some(old(users)[userId])
        && vfs.currentUserId == userId && vfs.files == old(vfs.files) && vfs.cache == old(vfs.cache)
        && vfs.nextId == old(vfs.nextId)
      ensures userId !in old(users) ==>
        var effect := CreateEffect(old(vfs.files), old(vfs.cache), old(vfs.currentUserId), old(vfs.nextId),
                                   "/home", userId, DirectoryKind([]), Some(DefaultPermissions(userId)), now);
        && users == old(users)[userId := NewUser(userId, now)]
        && vfs.files == effect.1 && vfs.cache == effect.2
        && (effect.0.Err? ==>
              r == Fail(effect.0.error) && currentUser == old(currentUser) && vfs.currentUserId == old(vfs.currentUserId))
        && (effect.0.Ok? ==> r == Pass && currentUser == Some(NewUser(userId, now)) && vfs.currentUserId == userId)
    {
      var user: User;
      if userId in users {
        user := users[userId];
      } else {
        user := NewUser(userId, now);
        users := users[userId := user];
        var created := vfs.CreateDirectory("/home", userId, Some(DefaultPermissions(userId)), now);
        if created.Err? {
          return Fail(created.error);
        }
      }
      currentUser := Some(user);
      vfs.SetCurrentUser(userId);
      r := Pass;
    }

    /** startSystemServices: the storage monitor, then the process supervisor. */
    method StartSystemServices(pm: ProcessManager, now: int)
      requires pm.Valid()
      modifies pm`table, pm`order, pm`stored, pm`calls, pm`nextPid
      ensures pm.Valid() && pm.nextPid == old(pm.nextPid) + 2
      ensures var up := ServicesUp(old(pm.table), old(pm.order), old(pm.stored), old(pm.nextPid), now);
        pm.table == up.0 && pm.order == up.1 && pm.stored == up.2
    {
      var monitor := pm.Spawn("storage-monitor", ServiceProcess, StorageMonitor(), None, now);
      var supervisor := pm.Spawn("process-supervisor", ServiceProcess, ProcessSupervisor(), None, now);
    }

    /**
     * boot: nothing when already booted; otherwise the boot time is set, then the user is loaded,
     * the file system mounted, the process manager initialized and the services started, and only
     * then is the kernel booted. A failing step is passed on with the kernel not booted.
     */
    method Boot(vfs: VirtualFileSystem, pm: ProcessManager, userId: Option<string>, now: int)
      returns (r: Outcome<KernelError>)
      requires Valid() && vfs.Valid() && pm.Valid()
      modifies this, vfs`files, vfs`cache, vfs`nextId, vfs`currentUserId
      modifies pm`table, pm`order, pm`stored, pm`calls, pm`nextPid
      ensures Valid() && vfs.Valid() && pm.Valid()
      ensures old(isBooted) ==>
        && r == Pass && isBooted && bootTime == old(bootTime) && currentUser == old(currentUser) && users == old(users)
        && unchanged(vfs) && unchanged(pm)
      ensures !old(isBooted) ==> bootTime == Some(now) && (isBooted <==> r.Pass?)
      ensures !old(isBooted) && r.Pass? ==>
        var id := BootUserId(userId);
        && id in users && currentUser == Some(users[id]) && vfs.currentUserId == id
        && var up := ServicesUp(old(pm.table), old(pm.order), Reclassified(old(pm.stored)), old(pm.nextPid), now);
           pm.table == up.0 && pm.order == up.1 && pm.stored == up.2
      ensures !old(isBooted) && BootUserId(userId) in old(users) ==> users == old(users)
      ensures !old(isBooted) && BootUserId(userId) !in old(users) ==>
        users == old(users)[BootUserId(userId) := NewUser(BootUserId(userId), now)]
      ensures !old(isBooted) && old(vfs.files) == map[] && old(vfs.cache) == map[] ==>
        r == Fail(FsFailed(ParentNotFound(if BootUserId(userId) in old(users) then "/" else "/home")))
    {
      if isBooted {
        return Pass;
      }
      bootTime := Some(now);
      var steps := BootSteps(vfs, pm, BootUserId(userId), now);
      if steps.Fail? {
        return Fail(FsFailed(steps.error));
      }
      isBooted := true;
      r := Pass;
    }

    /** Boot steps 2 to 5: the user is loaded, then the system started up for that user. */
    method BootSteps(vfs: VirtualFileSystem, pm: ProcessManager, id: string, now: int) returns (r: Outcome<FsError>)
      requires Valid() && vfs.Valid() && pm.Valid()
      modifies this`users, this`currentUser, vfs`files, vfs`cache, vfs`nextId, vfs`currentUserId
      modifies pm`table, pm`order, pm`stored, pm`calls, pm`nextPid
      ensures Valid() && vfs.Valid() && pm.Valid()
      ensures id in old(users) ==> users == old(users)
      ensures id !in old(users) ==> users == old(users)[id := NewUser(id, now)]
      ensures r.Pass? ==>
        && id in users && currentUser == Some(users[id]) && vfs.currentUserId == id
        && var up := ServicesUp(old(pm.table), old(pm.order), Reclassified(old(pm.stored)), old(pm.nextPid), now);
           pm.table == up.0 && pm.order == up.1 && pm.stored == up.2
      ensures old(vfs.files) == map[] && old(vfs.cache) == map[] ==>
        r == Fail(ParentNotFound(if id in old(users) then "/" else "/home"))
    {
      ghost var newUser := id !in users;
      r := LoadUser(vfs, id, now);
      if r.Fail? {
        if !newUser {
          assert false;
        }
        NoHomeOnEmptyStore(old(vfs.currentUserId), old(vfs.nextId), id, Some(DefaultPermissions(id)), now);
        return;
      }
      r := StartUp(vfs, pm, currentUser.value.id, now);
      if r.Fail? {
        NoRootOnEmptyStore();
      }
    }

    /** Boot steps 3 to 5: the file system is mounted for the user, then the processes come up. */
    method StartUp(vfs: VirtualFileSystem, pm: ProcessManager, userId: string, now: int) returns (r: Outcome<FsError>)
      requires vfs.Valid() && pm.Valid()
      modifies vfs`files, vfs`cache, vfs`nextId, vfs`currentUserId
      modifies pm`table, pm`order, pm`stored, pm`calls, pm`nextPid
      ensures vfs.Valid() && pm.Valid() && vfs.currentUserId == userId
      ensures Resolve(old(vfs.files), old(vfs.cache), "/").None? ==> r == Fail(ParentNotFound("/"))
      ensures r.Pass? ==>
        var up := ServicesUp(old(pm.table), old(pm.order), Reclassified(old(pm.stored)), old(pm.nextPid), now);
        pm.table == up.0 && pm.order == up.1 && pm.stored == up.2
    {
      r := vfs.Initialize(userId, now);
      if r.Fail? {
        return;
      }
      pm.Initialize();
      StartSystemServices(pm, now);
    }

    /**
     * shutdown: nothing when not booted; otherwise every process is killed, the cache cleared and
     * the store vacuumed, and the kernel is down. A failing killAll is passed on, still booted.
     */
    method Shutdown(vfs: VirtualFileSystem, pm: ProcessManager, fuel: nat, now: int) returns (r: Outcome<KernelError>)
      requires Valid() && vfs.Valid() && pm.Valid()
      modifies this`isBooted, this`bootTime, vfs`cache, pm`table, pm`order, pm`stored, pm`calls
      ensures Valid() && vfs.Valid() && pm.Valid()
      ensures !old(isBooted) ==>
        r == Pass && !isBooted && bootTime == old(bootTime) && unchanged(vfs) && unchanged(pm)
      ensures old(isBooted) ==>
        var (killed, after) := KillEachEffect(old(pm.State()), pm.handlers, old(pm.order), fuel);
        && (killed.Fail? ==>
              r == Fail(PmFailed(killed.error)) && isBooted && bootTime == old(bootTime)
              && vfs.cache == old(vfs.cache) && pm.State() == after)
        && (killed.Pass? ==>
              && r == Pass && !isBooted && bootTime == None && vfs.cache == map[]
              && pm.State() == after.(stored := Vacuumed(after.stored, now)))
    {
      if !isBooted {
        return Pass;
      }
      var killed := pm.KillAll(fuel);
      if killed.Fail? {
        return Fail(PmFailed(killed.error));
      }
      vfs.ClearCache();
      pm.Vacuum(now);
      isBooted := false;
      bootTime := None;
      r := Pass;
    }
  }
}
