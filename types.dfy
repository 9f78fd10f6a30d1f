// The records of the system (src/kernel/types.ts). Ids that the source draws from
// uuidv4 are natural numbers handed out by a counter in the component that creates them.
module KernelTypes {
  import opened Wrappers
  import opened JsMaps

  /** A value of a `Record<string, any>` field. */
  datatype Value = Undefined | Null | Bool(b: bool) | Num(n: int) | Str(s: string) | Obj(fields: map<string, Value>)

  // ---------------------------------------------------------------------------
  // File system
  // ---------------------------------------------------------------------------

  type NodeId = nat

  datatype FilePermissions = FilePermissions(
    owner: string,
    read: seq<string>,
    write: seq<string>,
    execute: seq<string>,
    public: bool)

  /** `string | ArrayBuffer`. */
  datatype Content = TextContent(text: string) | BinaryContent(bytes: seq<bv8>)

  /** A file carries content and a MIME type; a directory carries the ids of its children. */
  datatype NodeKind = FileKind(content: Content, mimeType: string) | DirectoryKind(children: seq<NodeId>)

  datatype FileNode = FileNode(
    id: NodeId,
    name: string,
    path: string,
    parentId: Option<NodeId>,
    kind: NodeKind,
    size: int,
    createdAt: int,
    modifiedAt: int,
    permissions: FilePermissions)
  {
    predicate IsDirectory() { kind.DirectoryKind? }
    predicate IsFile() { kind.FileKind? }
  }

  // ---------------------------------------------------------------------------
  // Processes
  // ---------------------------------------------------------------------------

  type Pid = nat

  datatype ProcessType = AppProcess | ServiceProcess | AgentProcess
  datatype ProcessStatus = Running | Paused | Stopped | Crashed

  /** `crashInfo`: the message and stack of the error, when one was given, and the time. */
  datatype CrashInfo = CrashInfo(error: Option<string>, stack: Option<string>, timestamp: int)

  datatype ProcessMetadata = ProcessMetadata(
    appId: Option<nat>,
    windowId: Option<nat>,
    permissions: seq<string>,
    environment: map<string, Value>,
    crashInfo: Option<CrashInfo>)

  datatype Process = Process(
    pid: Pid,
    name: string,
    ptype: ProcessType,
    status: ProcessStatus,
    priority: int,
    parentPid: Option<Pid>,
    startedAt: int,
    metadata: ProcessMetadata)

  // ---------------------------------------------------------------------------
  // Apps and windows
  // ---------------------------------------------------------------------------

  type AppId = nat
  type WindowId = nat

  datatype WindowConfig = WindowConfig(
    defaultWidth: int,
    defaultHeight: int,
    minWidth: Option<int>,
    minHeight: Option<int>,
    maxWidth: Option<int>,
    maxHeight: Option<int>,
    resizable: bool,
    draggable: bool,
    closable: bool,
    minimizable: bool,
    maximizable: bool)

  datatype App = App(
    id: AppId,
    name: string,
    version: string,
    description: string,
    icon: string,
    author: string,
    category: string,
    permissions: seq<string>,
    entryPoint: string,
    installSize: int,
    installedAt: Option<int>,
    isBuiltIn: bool,
    isRunning: bool,
    windowConfig: Option<WindowConfig>)

  datatype AppWindow = AppWindow(
    id: WindowId,
    appId: AppId,
    title: string,
    x: int,
    y: int,
    width: int,
    height: int,
    zIndex: int,
    isMaximized: bool,
    isMinimized: bool,
    isFocused: bool,
    state: map<string, Value>)

  // ---------------------------------------------------------------------------
  // AI agents
  // ---------------------------------------------------------------------------

  type AgentId = nat

  datatype AgentType = Assistant | Worker | Moderator | Trader | Custom
  datatype AgentStatus = Idle | Thinking | Acting | Learning

  datatype Personality = Personality(
    creativity: real,
    formality: real,
    helpfulness: real,
    assertiveness: real,
    traits: seq<string>)

  datatype MemoryType = Conversation | Fact | Task | Emotion

  datatype Memory = Memory(
    id: nat,
    mtype: MemoryType,
    content: string,
    importance: real,
    timestamp: int,
    relatedTo: seq<nat>)

  datatype GoalStatus = Active | Completed | Abandoned

  datatype Goal = Goal(
    id: nat,
    description: string,
    priority: int,
    status: GoalStatus,
    progress: real,
    deadline: Option<int>)

  datatype Agent = Agent(
    id: AgentId,
    name: string,
    atype: AgentType,
    ownerId: string,
    personality: Personality,
    memory: seq<Memory>,
    goals: seq<Goal>,
    skills: seq<string>,
    status: AgentStatus,
    createdAt: int,
    lastActiveAt: int)

  // ---------------------------------------------------------------------------
  // Economy
  // ---------------------------------------------------------------------------

  type WalletId = nat
  type CurrencyId = nat
  type TxId = nat

  /** An in-memory wallet: its balances are a `Map` from currency id to amount. */
  datatype Wallet = Wallet(
    id: WalletId,
    ownerId: string,
    balances: JsMap<CurrencyId, int>,
    transactions: seq<TxId>,
    createdAt: int)

  datatype Currency = Currency(
    id: CurrencyId,
    name: string,
    symbol: string,
    issuer: string,
    totalSupply: int,
    circulatingSupply: int,
    decimals: int,
    isSystemCurrency: bool,
    exchangeRates: JsMap<CurrencyId, real>)

  /** The `from` of a transaction: a wallet, or the literal `'system'` of a mint. */
  datatype Party = SystemParty | WalletParty(wallet: WalletId)

  datatype TxType = TransferTx | MintTx | BurnTx | RewardTx | TaxTx
  datatype TxStatus = Pending | TxCompleted | TxFailed

  datatype Transaction = Transaction(
    id: TxId,
    from: Party,
    to: WalletId,
    amount: int,
    currencyId: CurrencyId,
    ttype: TxType,
    status: TxStatus,
    timestamp: int,
    metadata: map<string, Value>)

  // ---------------------------------------------------------------------------
  // Collaboration and users
  // ---------------------------------------------------------------------------

  datatype CollabSession = CollabSession(
    id: string,
    resourceId: string,
    participants: seq<string>,
    createdAt: int,
    lastActivityAt: int,
    isActive: bool)

  datatype Privacy = Privacy(profileVisibility: string, allowMessages: bool, showOnlineStatus: bool)

  datatype Preferences = Preferences(theme: string, language: string, notifications: bool, privacy: Privacy)

  datatype User = User(
    id: string,
    username: string,
    displayName: string,
    avatar: string,
    email: Option<string>,
    role: string,
    reputation: int,
    joinedAt: int,
    lastSeenAt: int,
    preferences: Preferences)
}
