// The window registry and the app lifecycle (src/apps/appManager.ts). The windows live in a
// JavaScript Map, kept here as a map with its insertion order; the installed apps are the
// store's 'apps' collection, whose reads are copies. Window ids, app ids and the pids of the
// process manager stand for `uuidv4()`; the random window position is a parameter.
module Apps {
  import opened Wrappers
  import opened Seqs
  import opened Sorting
  import opened KernelTypes
  import opened Processes

  type Windows = map<WindowId, AppWindow>
  type AppStore = map<AppId, App>

  datatype AmError =
    | AppNotFound(app: AppId)
    | WindowNotFound(window: WindowId)
    | BuiltInNotRemovable
    | ProcessFailed(cause: PmError)

  /** The value `nextZIndex` starts at. */
  const FirstZIndex := 100

  // ---------------------------------------------------------------------------
  // Apps and their window configurations
  // ---------------------------------------------------------------------------

  /** What installApp is given: an app without its id, install time and running flag. */
  datatype AppData = AppData(
    name: string,
    version: string,
    description: string,
    icon: string,
    author: string,
    category: string,
    permissions: seq<string>,
    entryPoint: string,
    installSize: int,
    isBuiltIn: bool,
    windowConfig: Option<WindowConfig>)

  /** installApp's record: a fresh id, installed now, not running. */
  function Installed(d: AppData, id: AppId, now: int): App {
    App(id, d.name, d.version, d.description, d.icon, d.author, d.category, d.permissions, d.entryPoint,
        d.installSize, Some(now), d.isBuiltIn, false, d.windowConfig)
  }

  /** A resizable, draggable, closable, minimizable and maximizable window without maximum bounds. */
  function Config(defaultWidth: int, defaultHeight: int, minWidth: int, minHeight: int): WindowConfig {
    WindowConfig(defaultWidth, defaultHeight, Some(minWidth), Some(minHeight), None, None, true, true, true, true, true)
  }

  /** getDefaultWindowConfig. */
  function DefaultWindowConfig(): WindowConfig {
    Config(600, 500, 300, 200)
  }

  function SystemApp(name: string, description: string, icon: string, category: string, permissions: seq<string>,
                     entryPoint: string, installSize: int, config: WindowConfig): AppData {
    AppData(name, "1.0.0", description, icon, "system", category, permissions, entryPoint, installSize, true, Some(config))
  }

  /** The six apps installBuiltInApps provides, in its order. */
  function BuiltInApps(): seq<AppData> {
    [ SystemApp("File Explorer", "Browse and manage files", "\U{1F4C1}", "system",
                ["filesystem.read", "filesystem.write"], "/apps/FileExplorer", 102400, Config(800, 600, 600, 400)),
      SystemApp("Terminal", "Command-line interface", "\U{2328}\U{FE0F}", "development",
                ["filesystem.read", "filesystem.write", "system.admin"], "/apps/Terminal", 51200, Config(700, 400, 400, 300)),
      SystemApp("Text Editor", "Create and edit text files", "\U{1F4DD}", "productivity",
                ["filesystem.read", "filesystem.write"], "/apps/TextEditor", 76800, Config(600, 500, 400, 300)),
      SystemApp("Wallet", "Manage your currency and transactions", "\U{1F4B0}", "finance",
                ["economy.transact"], "/apps/Wallet", 81920, Config(500, 600, 400, 500)),
      SystemApp("AI Assistant", "Your personal AI helper", "\U{1F916}", "ai",
                ["ai.execute", "filesystem.read", "network.access"], "/apps/AIAssistant", 153600, Config(450, 650, 350, 500)),
      SystemApp("Settings", "System preferences and configuration", "\U{2699}\U{FE0F}", "system",
                ["system.admin"], "/apps/Settings", 61440, Config(700, 550, 600, 450)) ]
  }

  /** Every stored app is keyed by its id, below the next fresh id. */
  ghost predicate AppsValid(apps: AppStore, nextId: nat) {
    forall k :: k in apps ==> apps[k].id == k && k < nextId
  }

  /** `existing.find(a => a.name === name && a.isBuiltIn)` finds something. */
  predicate HasBuiltIn(apps: AppStore, name: string) {
    exists k :: k in apps && apps[k].name == name && apps[k].isBuiltIn
  }

  /** installBuiltInApps: each app whose name no built-in app has yet is installed under the next id. */
  function InstallMissing(apps: AppStore, next: nat, ds: seq<AppData>, now: int): (AppStore, nat)
    decreases |ds|
  {
    if |ds| == 0 then (apps, next)
    else if HasBuiltIn(apps, ds[0].name) then InstallMissing(apps, next, ds[1..], now)
    else InstallMissing(apps[next := Installed(ds[0], next, now)], next + 1, ds[1..], now)
  }

  /**
   * After installBuiltInApps every given built-in app is present, the apps stored before are kept
   * as they were, and the store stays keyed by fresh ids.
   */
  lemma {:induction false} InstallMissingComplete(apps: AppStore, next: nat, ds: seq<AppData>, now: int)
    requires AppsValid(apps, next)
    requires forall i :: 0 <= i < |ds| ==> ds[i].isBuiltIn
    ensures AppsValid(InstallMissing(apps, next, ds, now).0, InstallMissing(apps, next, ds, now).1)
    ensures forall i :: 0 <= i < |ds| ==> HasBuiltIn(InstallMissing(apps, next, ds, now).0, ds[i].name)
    ensures forall k :: k in apps ==> k in InstallMissing(apps, next, ds, now).0 && InstallMissing(apps, next, ds, now).0[k] == apps[k]
    decreases |ds|
  {
    if |ds| > 0 {
      var a1 := if HasBuiltIn(apps, ds[0].name) then apps else apps[next := Installed(ds[0], next, now)];
      var n1 := if HasBuiltIn(apps, ds[0].name) then next else next + 1;
      assert HasBuiltIn(a1, ds[0].name) by {
        if !HasBuiltIn(apps, ds[0].name) {
          assert a1[next].name == ds[0].name && a1[next].isBuiltIn;
        }
      }
      InstallMissingComplete(a1, n1, ds[1..], now);
      var r := InstallMissing(apps, next, ds, now).0;
      assert r == InstallMissing(a1, n1, ds[1..], now).0;
      forall i | 0 <= i < |ds| ensures HasBuiltIn(r, ds[i].name) {
        if i == 0 {
          var k :| k in a1 && a1[k].name == ds[0].name && a1[k].isBuiltIn;
          assert r[k] == a1[k];
        } else {
          assert ds[i] == ds[1..][i - 1];
        }
      }
    }
  }

  /** With every built-in app already present, installBuiltInApps changes nothing. */
  lemma {:induction false} InstallMissingNoop(apps: AppStore, next: nat, ds: seq<AppData>, now: int)
    requires forall i :: 0 <= i < |ds| ==> HasBuiltIn(apps, ds[i].name)
    ensures InstallMissing(apps, next, ds, now) == (apps, next)
    decreases |ds|
  {
    if |ds| > 0 {
      assert HasBuiltIn(apps, ds[0].name);
      assert forall i :: 0 <= i < |ds[1..]| ==> ds[1..][i] == ds[i + 1];
      InstallMissingNoop(apps, next, ds[1..], now);
    }
  }

  /** installBuiltInApps is idempotent: a second run, at any later time, installs nothing. */
  lemma InstallBuiltInsIdempotent(apps: AppStore, next: nat, now: int, later: int)
    requires AppsValid(apps, next)
    ensures var (a1, n1) := InstallMissing(apps, next, BuiltInApps(), now);
      InstallMissing(a1, n1, BuiltInApps(), later) == (a1, n1)
  {
    var ds := BuiltInApps();
    InstallMissingComplete(apps, next, ds, now);
    var (a1, n1) := InstallMissing(apps, next, ds, now);
    InstallMissingNoop(a1, n1, ds, later);
  }

  // ---------------------------------------------------------------------------
  // Window operations as functions of the window map
  // ---------------------------------------------------------------------------

  predicate OfAppWindow(appId: AppId, w: AppWindow) {
    w.appId == appId
  }

  function OfApp(appId: AppId): AppWindow -> bool {
    w => OfAppWindow(appId, w)
  }

  /** `Array.from(windows.values()).filter(w => w.appId === appId)`. */
  function AppWindows(ws: Windows, order: seq<WindowId>, appId: AppId): seq<AppWindow>
    requires forall i :: 0 <= i < |order| ==> order[i] in ws
  {
    Filter(Values(ws, order), OfApp(appId))
  }

  /** `Array.from(windows.values()).find(w => w.appId === appId)`. */
  function FirstAppWindow(ws: Windows, order: seq<WindowId>, appId: AppId): Option<AppWindow>
    requires forall i :: 0 <= i < |order| ==> order[i] in ws
  {
    Find(Values(ws, order), OfApp(appId))
  }

  predicate HasWindowOf(ws: Windows, appId: AppId) {
    exists k :: k in ws && ws[k].appId == appId
  }

  /** The filter over the Map's values lists only windows of the app held by the Map. */
  lemma AppWindowsMembers(ws: Windows, order: seq<WindowId>, appId: AppId)
    requires Ordered(ws, order)
    ensures forall i :: 0 <= i < |AppWindows(ws, order, appId)| ==>
      AppWindows(ws, order, appId)[i] in ws.Values && AppWindows(ws, order, appId)[i].appId == appId
  {
    ValuesMembers(ws, order);
    var vs := Values(ws, order);
    var aw := AppWindows(ws, order, appId);
    forall i | 0 <= i < |aw| ensures aw[i] in ws.Values && aw[i].appId == appId {
      assert aw[i] in vs && OfApp(appId)(aw[i]);
    }
  }

  /** The filter over the Map's values is empty exactly when the app has no window. */
  lemma AppWindowsExact(ws: Windows, order: seq<WindowId>, appId: AppId)
    requires Ordered(ws, order)
    ensures |AppWindows(ws, order, appId)| == 0 <==> !HasWindowOf(ws, appId)
  {
    var vs := Values(ws, order);
    var aw := AppWindows(ws, order, appId);
    if HasWindowOf(ws, appId) {
      var k :| k in ws && ws[k].appId == appId;
      var i :| 0 <= i < |order| && order[i] == k;
      assert vs[i] == ws[k] && OfApp(appId)(vs[i]);
    }
    if |aw| > 0 {
      AppWindowsMembers(ws, order, appId);
      var k :| k in ws && ws[k] == aw[0];
    }
  }

  /** `remainingWindows.length` in closeWindow: zero exactly when the app has no window left. */
  function RemainingWindows(ws: Windows, order: seq<WindowId>, appId: AppId): (n: nat)
    requires Ordered(ws, order)
    ensures n == 0 <==> !HasWindowOf(ws, appId)
  {
    AppWindowsExact(ws, order, appId);
    |AppWindows(ws, order, appId)|
  }

  /** Changing the running flag of a stored app keeps the store keyed by fresh ids. */
  lemma FlagKeepsAppsValid(apps: AppStore, next: nat, appId: AppId, running: bool)
    requires AppsValid(apps, next) && appId in apps
    ensures AppsValid(apps[appId := apps[appId].(isRunning := running)], next)
  {
  }

  /** The find over the Map's values gives a window of the app, stored under its id, whenever there is one. */
  lemma FirstAppWindowExact(ws: Windows, order: seq<WindowId>, appId: AppId)
    requires Ordered(ws, order) && forall k :: k in ws ==> ws[k].id == k
    ensures FirstAppWindow(ws, order, appId).Some? <==> HasWindowOf(ws, appId)
    ensures FirstAppWindow(ws, order, appId).Some? ==>
      && FirstAppWindow(ws, order, appId).value.id in ws
      && ws[FirstAppWindow(ws, order, appId).value.id] == FirstAppWindow(ws, order, appId).value
      && FirstAppWindow(ws, order, appId).value.appId == appId
  {
    var vs := Values(ws, order);
    if HasWindowOf(ws, appId) {
      var k :| k in ws && ws[k].appId == appId;
      var i :| 0 <= i < |order| && order[i] == k;
      assert vs[i] == ws[k] && OfApp(appId)(vs[i]);
    }
    if FirstAppWindow(ws, order, appId).Some? {
      var w := FirstAppWindow(ws, order, appId).value;
      var i :| 0 <= i < |vs| && vs[i] == w && OfApp(appId)(vs[i]);
      assert ws[order[i]] == w;
    }
  }

  /** The windows' ids are keys, fresh, and their z-order values distinct and below the counter. */
  ghost predicate WindowsValid(ws: Windows, order: seq<WindowId>, nextId: nat, nextZ: int) {
    && Ordered(ws, order)
    && FirstZIndex <= nextZ
    && (forall k :: k in ws ==> ws[k].id == k && k < nextId && FirstZIndex <= ws[k].zIndex < nextZ)
    && (forall a, b :: a in ws && b in ws && a != b ==> ws[a].zIndex != ws[b].zIndex)
    && AtMostOneFocused(ws)
  }

  ghost predicate AtMostOneFocused(ws: Windows) {
    forall a, b :: a in ws && b in ws && ws[a].isFocused && ws[b].isFocused ==> a == b
  }

  /** What the `forEach(w => w.isFocused = false)` loops leave. */
  function Unfocused(ws: Windows): Windows {
    map k | k in ws :: ws[k].(isFocused := false)
  }

  /** The window createWindow builds, from the app's configuration or the default one. */
  function NewWindow(app: App, id: WindowId, z: int, x: int, y: int, initialState: Option<map<string, Value>>): AppWindow {
    var config := app.windowConfig.GetOr(DefaultWindowConfig());
    AppWindow(id, app.id, app.name, x, y, config.defaultWidth, config.defaultHeight, z, false, false, true,
              initialState.GetOr(map[]))
  }

  /** launchApp's `windows.set(window.id, window)` after createWindow unfocused the others. */
  function Registered(ws: Windows, w: AppWindow): Windows {
    Unfocused(ws)[w.id := w]
  }

  /** focusWindow: everything unfocused, then the target focused, raised to `z` and restored. */
  function FocusedOn(ws: Windows, id: WindowId, z: int): Windows
    requires id in ws
  {
    Unfocused(ws)[id := ws[id].(isFocused := true, zIndex := z, isMinimized := false)]
  }

  function Minimized(ws: Windows, id: WindowId): Windows
    requires id in ws
  {
    ws[id := ws[id].(isMinimized := true, isFocused := false)]
  }

  function Maximized(ws: Windows, id: WindowId): Windows
    requires id in ws
  {
    ws[id := ws[id].(isMaximized := !ws[id].isMaximized, isMinimized := false)]
  }

  function Moved(ws: Windows, id: WindowId, x: int, y: int): Windows
    requires id in ws
  {
    ws[id := ws[id].(x := x, y := y)]
  }

  /** `value || fallback` on an optional number: a missing value and 0 both fall back. */
  function OrElse(value: Option<int>, fallback: int): int {
    if value.Some? && value.value != 0 then value.value else fallback
  }

  /** `Math.max(lo, Math.min(v, hi))`. */
  function Clamp(lo: int, v: int, hi: int): int {
    var m := if v < hi then v else hi;
    if lo > m then lo else m
  }

  function ResizedWidth(config: WindowConfig, width: int): int {
    Clamp(OrElse(config.minWidth, 200), width, OrElse(config.maxWidth, 2000))
  }

  function ResizedHeight(config: WindowConfig, height: int): int {
    Clamp(OrElse(config.minHeight, 150), height, OrElse(config.maxHeight, 1500))
  }

  /**
   * resizeWindow: the bounds come from the default configuration whatever the app is, because
   * the app lookup's promise is read as if it were the app.
   */
  function Resized(ws: Windows, id: WindowId, width: int, height: int): Windows
    requires id in ws
  {
    var config := DefaultWindowConfig();
    ws[id := ws[id].(width := ResizedWidth(config, width), height := ResizedHeight(config, height))]
  }

  /** updateWindowState: `{ ...window.state, ...state }`. */
  function StateUpdated(ws: Windows, id: WindowId, patch: map<string, Value>): Windows
    requires id in ws
  {
    ws[id := ws[id].(state := ws[id].state + patch)]
  }

  /** closeWindow's effect on the store: once the app has no window left, it is marked not running. */
  function AfterLastWindow(apps: AppStore, ws: Windows, appId: AppId): AppStore {
    if HasWindowOf(ws, appId) || appId !in apps then apps else StoppedApp(apps, appId)
  }

  /** `app.isRunning = false; storage.set('apps', app)`. */
  function StoppedApp(apps: AppStore, appId: AppId): AppStore
    requires appId in apps
  {
    apps[appId := apps[appId].(isRunning := false)]
  }

  /** The ids of a list of windows. */
  function Ids(ws: seq<AppWindow>): set<WindowId> {
    if |ws| == 0 then {} else Ids(ws[..|ws| - 1]) + {ws[|ws| - 1].id}
  }

  lemma {:induction false} IdsMembers(ws: seq<AppWindow>)
    ensures forall k :: k in Ids(ws) <==> exists i :: 0 <= i < |ws| && ws[i].id == k
  {
    if |ws| > 0 {
      var init := ws[..|ws| - 1];
      IdsMembers(init);
      assert forall i :: 0 <= i < |init| ==> init[i] == ws[i];
    }
  }

  /** The windows that remain once every window of the app is closed. */
  function WithoutApp(ws: Windows, appId: AppId): Windows {
    map k | k in ws && ws[k].appId != appId :: ws[k]
  }

  predicate ZLeq(a: AppWindow, b: AppWindow) {
    a.zIndex <= b.zIndex
  }

  /** getAllWindows: the Map's values sorted by ascending z-order (`a.zIndex - b.zIndex`, stable). */
  function AllWindows(ws: Windows, order: seq<WindowId>): seq<AppWindow>
    requires forall i :: 0 <= i < |order| ==> order[i] in ws
  {
    SortBy(Values(ws, order), ZLeq)
  }

  // ---------------------------------------------------------------------------
  // What the window operations promise
  // ---------------------------------------------------------------------------

  /** Clamping with the default bounds keeps the size within [300, 2000] x [200, 1500]. */
  lemma ResizeBounds(ws: Windows, id: WindowId, width: int, height: int)
    requires id in ws
    ensures 300 <= Resized(ws, id, width, height)[id].width <= 2000
    ensures 200 <= Resized(ws, id, width, height)[id].height <= 1500
    ensures 300 <= width <= 2000 ==> Resized(ws, id, width, height)[id].width == width
    ensures 200 <= height <= 1500 ==> Resized(ws, id, width, height)[id].height == height
    ensures forall k :: k in ws && k != id ==> Resized(ws, id, width, height)[k] == ws[k]
  {
  }

  /**
   * An app's own minimum is not enforced: the File Explorer asks for at least 600 x 400,
   * and a resize to 400 x 300 is kept.
   */
  lemma ResizeIgnoresAppMinimum(ws: Windows, id: WindowId)
    requires id in ws
    ensures BuiltInApps()[0].windowConfig.value.minWidth == Some(600)
    ensures Resized(ws, id, 400, 300)[id].width == 400 && Resized(ws, id, 400, 300)[id].height == 300
  {
  }

  /** After focusWindow the target is the only focused window, above every other, and not minimized. */
  lemma FocusSingles(ws: Windows, id: WindowId, z: int)
    requires id in ws && forall k :: k in ws ==> ws[k].zIndex < z
    ensures FocusedOn(ws, id, z).Keys == ws.Keys
    ensures forall k :: k in ws ==> (FocusedOn(ws, id, z)[k].isFocused <==> k == id)
    ensures forall k :: k in ws && k != id ==> FocusedOn(ws, id, z)[k].zIndex < FocusedOn(ws, id, z)[id].zIndex
    ensures !FocusedOn(ws, id, z)[id].isMinimized
  {
  }

  lemma FocusKeepsValid(ws: Windows, order: seq<WindowId>, nextId: nat, z: int, id: WindowId)
    requires WindowsValid(ws, order, nextId, z) && id in ws
    ensures WindowsValid(FocusedOn(ws, id, z), order, nextId, z + 1)
  {
    var ws' := FocusedOn(ws, id, z);
    assert ws'.Keys == ws.Keys;
  }

  /** A window registered by launchApp is the only focused one. */
  lemma RegisterFocuses(ws: Windows, w: AppWindow)
    requires w.isFocused
    ensures forall k :: k in Registered(ws, w) ==> (Registered(ws, w)[k].isFocused <==> k == w.id)
  {
  }

  /** Registering a fresh window on top keeps the registry's invariant. */
  lemma RegisterKeepsValid(ws: Windows, order: seq<WindowId>, nextId: nat, z: int, w: AppWindow)
    requires WindowsValid(ws, order, nextId, z)
    requires w.id == nextId && w.zIndex == z && w.isFocused
    ensures WindowsValid(Registered(ws, w), order + [w.id], nextId + 1, z + 1)
  {
    RegisterFocuses(ws, w);
    var ws' := Registered(ws, w);
    assert w.id !in ws;
    assert ws'.Keys == ws.Keys + {w.id};
    AppendKeepsOrdered(ws, order, w.id, ws');
  }

  /** Editing a window without touching its id, z-order or focus keeps the invariant. */
  lemma EditKeepsValid(ws: Windows, order: seq<WindowId>, nextId: nat, z: int, id: WindowId, w: AppWindow)
    requires WindowsValid(ws, order, nextId, z) && id in ws
    requires w.id == ws[id].id && w.zIndex == ws[id].zIndex && w.isFocused == ws[id].isFocused
    ensures WindowsValid(ws[id := w], order, nextId, z)
  {
    assert ws[id := w].Keys == ws.Keys;
  }

  /** closeWindow's `windows.delete(id)` keeps the invariant. */
  lemma CloseKeepsValid(ws: Windows, order: seq<WindowId>, nextId: nat, z: int, id: WindowId)
    requires WindowsValid(ws, order, nextId, z)
    ensures WindowsValid(ws - {id}, Without(order, id), nextId, z)
  {
    WithoutKeepsOrdered(ws, order, id);
  }

  /** minimizeWindow leaves the target minimized and unfocused and every other window as it was. */
  lemma MinimizeKeepsValid(ws: Windows, order: seq<WindowId>, nextId: nat, z: int, id: WindowId)
    requires WindowsValid(ws, order, nextId, z) && id in ws
    ensures WindowsValid(Minimized(ws, id), order, nextId, z)
    ensures Minimized(ws, id)[id].isMinimized && !Minimized(ws, id)[id].isFocused
    ensures ws[id].isFocused ==> forall k :: k in Minimized(ws, id) ==> !Minimized(ws, id)[k].isFocused
  {
    var ws' := Minimized(ws, id);
    assert ws'.Keys == ws.Keys;
  }

  /** maximizeWindow toggles: a second maximize restores the flag, and neither leaves it minimized. */
  lemma MaximizeTwice(ws: Windows, id: WindowId)
    requires id in ws
    ensures Maximized(ws, id)[id].isMaximized == !ws[id].isMaximized
    ensures Maximized(Maximized(ws, id), id)[id] == ws[id].(isMinimized := false)
  {
  }

  /** updateWindowState: the given keys take the new values, every other key keeps its value. */
  lemma StateUpdateMerges(ws: Windows, id: WindowId, patch: map<string, Value>)
    requires id in ws
    ensures StateUpdated(ws, id, patch)[id].state.Keys == ws[id].state.Keys + patch.Keys
    ensures forall key :: key in patch ==> StateUpdated(ws, id, patch)[id].state[key] == patch[key]
    ensures forall key :: key in ws[id].state && key !in patch ==> StateUpdated(ws, id, patch)[id].state[key] == ws[id].state[key]
  {
  }

  /** Closing the last window of an app marks it not running; while one remains, the store is untouched. */
  lemma AfterLastWindowFlag(apps: AppStore, ws: Windows, appId: AppId)
    ensures AfterLastWindow(apps, ws, appId).Keys == apps.Keys
    ensures appId in apps ==> (!AfterLastWindow(apps, ws, appId)[appId].isRunning <==> !HasWindowOf(ws, appId) || !apps[appId].isRunning)
    ensures forall a :: a in apps && a != appId ==> AfterLastWindow(apps, ws, appId)[a] == apps[a]
  {
  }

  /** getAllWindows rearranges the Map's values: every window is listed, and nothing else. */
  lemma AllWindowsPermutes(ws: Windows, order: seq<WindowId>)
    requires Ordered(ws, order)
    ensures multiset(AllWindows(ws, order)) == multiset(Values(ws, order))
    ensures forall k :: k in ws ==> ws[k] in AllWindows(ws, order)
    ensures forall i :: 0 <= i < |AllWindows(ws, order)| ==> AllWindows(ws, order)[i] in ws.Values
  {
    var vs := Values(ws, order);
    var sorted := AllWindows(ws, order);
    SortPermutes(vs, ZLeq);
    ValuesMembers(ws, order);
    forall k | k in ws ensures ws[k] in sorted {
      assert ws[k] in multiset(vs);
    }
    forall i | 0 <= i < |sorted| ensures sorted[i] in ws.Values {
      assert sorted[i] in multiset(vs);
    }
  }

  /** getAllWindows lists the windows in strictly increasing z-order. */
  lemma AllWindowsIncreasing(ws: Windows, order: seq<WindowId>, nextId: nat, z: int)
    requires WindowsValid(ws, order, nextId, z)
    ensures forall i, j :: 0 <= i < j < |AllWindows(ws, order)| ==> AllWindows(ws, order)[i].zIndex < AllWindows(ws, order)[j].zIndex
  {
    var sorted := AllWindows(ws, order);
    assert TotalPreorder(ZLeq);
    SortSorted(Values(ws, order), ZLeq);
    AllWindowsPermutes(ws, order);
    forall i, j | 0 <= i < j < |sorted| ensures sorted[i].zIndex < sorted[j].zIndex {
      assert ZLeq(sorted[i], sorted[j]);
      var a :| a in ws && ws[a] == sorted[i];
      var b :| b in ws && ws[b] == sorted[j];
      if a == b {
        DistinctValues(ws, order, a);
        MultisetTwice(sorted, i, j);
      }
    }
  }

  /** A window's record occurs once among the Map's values, since ids are keys. */
  lemma DistinctValues(ws: Windows, order: seq<WindowId>, a: WindowId)
    requires Ordered(ws, order) && a in ws
    requires forall k :: k in ws ==> ws[k].id == k
    ensures multiset(Values(ws, order))[ws[a]] == 1
  {
    var vs := Values(ws, order);
    var i :| 0 <= i < |order| && order[i] == a;
    assert vs == vs[..i] + [vs[i]] + vs[i + 1..];
    forall j | 0 <= j < |vs| && j != i ensures vs[j] != ws[a] {
      assert vs[j].id == order[j];
    }
    NotInMultiset(vs[..i], ws[a]);
    NotInMultiset(vs[i + 1..], ws[a]);
  }

  lemma NotInMultiset<T>(s: seq<T>, x: T)
    requires forall j :: 0 <= j < |s| ==> s[j] != x
    ensures multiset(s)[x] == 0
  {
  }

  /** An element at two positions occurs at least twice. */
  lemma {:induction false} MultisetTwice<T>(s: seq<T>, i: nat, j: nat)
    requires i < j < |s| && s[i] == s[j]
    ensures multiset(s)[s[i]] >= 2
  {
    assert s == s[..i] + [s[i]] + s[i + 1..j] + [s[j]] + s[j + 1..];
  }

  /** The process launchApp spawns for an app. */
  function LaunchedProcess(app: App, pid: Pid, initialState: Option<map<string, Value>>, now: int): Process {
    var env := map["initialState" := if initialState.Some? then Obj(initialState.value) else Undefined];
    NewProcess(pid, app.name, AppProcess, MetadataPatch(Some(app.id), None, Some(app.permissions), Some(env)), None, now)
  }

  /** The process manager's state after spawning `p`. */
  function Spawned(s: PmState, h: Handlers, p: Process): PmState {
    PmState(s.table[p.pid := p], s.order + [p.pid], s.stored[p.pid := p], s.calls + Emit(h, "spawn", p))
  }

  /** launchApp focuses an existing window when the app has a running process and a window. */
  predicate Reuses(table: Table, porder: seq<Pid>, ws: Windows, worder: seq<WindowId>, appId: AppId)
    requires forall i :: 0 <= i < |porder| ==> porder[i] in table
    requires forall i :: 0 <= i < |worder| ==> worder[i] in ws
  {
    ProcessByAppId(table, porder, appId).Some? && FirstAppWindow(ws, worder, appId).Some?
  }

  // ---------------------------------------------------------------------------
  // The manager
  // ---------------------------------------------------------------------------

  /** The store's 'apps' collection, with the source of fresh app ids. */
  class AppRegistry {
    var apps: AppStore
    /** The next fresh app id. */
    var nextAppId: nat

    ghost predicate Valid()
      reads this
    {
      AppsValid(apps, nextAppId)
    }

    constructor(saved: AppStore, firstFreeAppId: nat)
      requires AppsValid(saved, firstFreeAppId)
      ensures Valid() && apps == saved && nextAppId == firstFreeAppId
    {
      apps := saved;
      nextAppId := firstFreeAppId;
    }

    /** `storage.set('apps', app)`. */
    method Save(app: App)
      modifies this`apps
      ensures apps == old(apps)[app.id := app]
    {
      apps := apps[app.id := app];
    }

    /** `storage.delete('apps', id)`. */
    method Delete(id: AppId)
      modifies this`apps
      ensures apps == old(apps) - {id}
    {
      apps := apps - {id};
    }

    /** `uuidv4()` for a new app. */
    method FreshId() returns (id: AppId)
      modifies this`nextAppId
      ensures id == old(nextAppId) && nextAppId == id + 1
    {
      id := nextAppId;
      nextAppId := nextAppId + 1;
    }
  }

  class AppManager {
    var windows: Windows
    /** The Map's insertion order. */
    var order: seq<WindowId>
    var nextZIndex: int
    /** The next fresh window id. */
    var nextWindowId: nat

    ghost predicate Valid()
      reads this
    {
      WindowsValid(windows, order, nextWindowId, nextZIndex)
    }

    /** The singleton: no windows, the z-order counter at 100. */
    constructor()
      ensures Valid()
      ensures windows == map[] && order == [] && nextZIndex == FirstZIndex && nextWindowId == 0
    {
      windows := map[];
      order := [];
      nextZIndex := FirstZIndex;
      nextWindowId := 0;
    }

    /** `windows.set(w.id, w)`: a new key goes to the end of the insertion order. */
    method PutWindow(w: AppWindow)
      modifies this`windows, this`order
      ensures windows == old(windows)[w.id := w]
      ensures order == if w.id in old(windows) then old(order) else old(order) + [w.id]
    {
      if w.id !in windows {
        order := order + [w.id];
      }
      windows := windows[w.id := w];
    }

    /** `windows.delete(id)`. */
    method RemoveWindow(id: WindowId)
      modifies this`windows, this`order
      ensures windows == old(windows) - {id} && order == Without(old(order), id)
    {
      windows := windows - {id};
      order := Without(order, id);
    }

    /** `this.nextZIndex++`. */
    method TakeZIndex() returns (z: int)
      modifies this`nextZIndex
      ensures z == old(nextZIndex) && nextZIndex == z + 1
    {
      z := nextZIndex;
      nextZIndex := nextZIndex + 1;
    }

    method InstallApp(store: AppRegistry, d: AppData, now: int) returns (app: App)
      requires store.Valid()
      modifies store
      ensures store.Valid()
      ensures app == Installed(d, old(store.nextAppId), now) && old(store.nextAppId) !in old(store.apps)
      ensures store.apps == old(store.apps)[app.id := app] && store.nextAppId == old(store.nextAppId) + 1
    {
      var id := store.FreshId();
      app := Installed(d, id, now);
      store.Save(app);
    }

    /** initialize and installBuiltInApps. */
    method InstallBuiltInApps(store: AppRegistry, now: int)
      requires store.Valid()
      modifies store
      ensures store.Valid()
      ensures (store.apps, store.nextAppId) == InstallMissing(old(store.apps), old(store.nextAppId), BuiltInApps(), now)
    {
      var ds := BuiltInApps();
      InstallMissingComplete(store.apps, store.nextAppId, ds, now);
      for i := 0 to |ds|
        invariant store.Valid()
        invariant InstallMissing(store.apps, store.nextAppId, ds[i..], now) == InstallMissing(old(store.apps), old(store.nextAppId), ds, now)
      {
        assert ds[i..][1..] == ds[i + 1..];
        if !HasBuiltIn(store.apps, ds[i].name) {
          var _ := InstallApp(store, ds[i], now);
        }
      }
    }

    method UnfocusAll()
      requires Ordered(windows, order)
      modifies this`windows
      ensures windows == Unfocused(old(windows))
    {
      for i := 0 to |order|
        invariant windows.Keys == old(windows).Keys
        invariant forall k :: k in windows ==>
          windows[k] == if k in order[..i] then old(windows)[k].(isFocused := false) else old(windows)[k]
      {
        var k := order[i];
        windows := windows[k := windows[k].(isFocused := false)];
        assert order[..i + 1] == order[..i] + [k];
      }
      assert order[..|order|] == order;
    }

    /** createWindow: the new window takes the next z-order value and the others lose focus. */
    method CreateWindow(app: App, x: int, y: int, initialState: Option<map<string, Value>>) returns (w: AppWindow)
      requires Valid()
      modifies this`windows, this`nextZIndex, this`nextWindowId
      ensures w == NewWindow(app, old(nextWindowId), old(nextZIndex), x, y, initialState)
      ensures windows == Unfocused(old(windows)) && nextZIndex == old(nextZIndex) + 1 && nextWindowId == old(nextWindowId) + 1
    {
      w := NewWindow(app, nextWindowId, nextZIndex, x, y, initialState);
      nextWindowId := nextWindowId + 1;
      nextZIndex := nextZIndex + 1;
      UnfocusAll();
    }

    method CloseWindow(store: AppRegistry, windowId: WindowId) returns (r: Outcome<AmError>)
      requires Valid() && store.Valid()
      modifies this`windows, this`order, store`apps
      ensures Valid() && store.Valid()
      ensures windowId !in old(windows) ==>
        r == Fail(WindowNotFound(windowId)) && windows == old(windows) && order == old(order) && store.apps == old(store.apps)
      ensures windowId in old(windows) ==>
        && r.Pass? && windows == old(windows) - {windowId} && order == Without(old(order), windowId)
        && store.apps == AfterLastWindow(old(store.apps), windows, old(windows)[windowId].appId)
    {
      if windowId !in windows {
        return Fail(WindowNotFound(windowId));
      }
      var w := windows[windowId];
      CloseKeepsValid(windows, order, nextWindowId, nextZIndex, windowId);
      RemoveWindow(windowId);
      if RemainingWindows(windows, order, w.appId) == 0 {
        if w.appId in store.apps {
          FlagKeepsAppsValid(store.apps, store.nextAppId, w.appId, false);
          store.Save(store.apps[w.appId].(isRunning := false));
        }
      }
      r := Pass;
    }

    method FocusWindow(windowId: WindowId) returns (r: Outcome<AmError>)
      requires Valid()
      modifies this`windows, this`order, this`nextZIndex
      ensures Valid() && order == old(order)
      ensures windowId !in old(windows) ==> r == Fail(WindowNotFound(windowId)) && windows == old(windows) && nextZIndex == old(nextZIndex)
      ensures windowId in old(windows) ==>
        r.Pass? && windows == FocusedOn(old(windows), windowId, old(nextZIndex)) && nextZIndex == old(nextZIndex) + 1
    {
      if windowId !in windows {
        return Fail(WindowNotFound(windowId));
      }
      FocusKeepsValid(windows, order, nextWindowId, nextZIndex, windowId);
      var w := windows[windowId];
      UnfocusAll();
      var z := TakeZIndex();
      PutWindow(w.(isFocused := true, zIndex := z, isMinimized := false));
      r := Pass;
    }

    method MinimizeWindow(windowId: WindowId) returns (r: Outcome<AmError>)
      requires Valid()
      modifies this`windows, this`order
      ensures Valid() && order == old(order)
      ensures windowId !in old(windows) ==> r == Fail(WindowNotFound(windowId)) && windows == old(windows)
      ensures windowId in old(windows) ==> r.Pass? && windows == Minimized(old(windows), windowId)
    {
      if windowId !in windows {
        return Fail(WindowNotFound(windowId));
      }
      MinimizeKeepsValid(windows, order, nextWindowId, nextZIndex, windowId);
      PutWindow(windows[windowId].(isMinimized := true, isFocused := false));
      r := Pass;
    }

    method MaximizeWindow(windowId: WindowId) returns (r: Outcome<AmError>)
      requires Valid()
      modifies this`windows, this`order
      ensures Valid() && order == old(order)
      ensures windowId !in old(windows) ==> r == Fail(WindowNotFound(windowId)) && windows == old(windows)
      ensures windowId in old(windows) ==> r.Pass? && windows == Maximized(old(windows), windowId)
    {
      if windowId !in windows {
        return Fail(WindowNotFound(windowId));
      }
      var w := windows[windowId].(isMaximized := !windows[windowId].isMaximized, isMinimized := false);
      EditKeepsValid(windows, order, nextWindowId, nextZIndex, windowId, w);
      PutWindow(w);
      r := Pass;
    }

    method MoveWindow(windowId: WindowId, x: int, y: int) returns (r: Outcome<AmError>)
      requires Valid()
      modifies this`windows, this`order
      ensures Valid() && order == old(order)
      ensures windowId !in old(windows) ==> r == Fail(WindowNotFound(windowId)) && windows == old(windows)
      ensures windowId in old(windows) ==> r.Pass? && windows == Moved(old(windows), windowId, x, y)
    {
      if windowId !in windows {
        return Fail(WindowNotFound(windowId));
      }
      var w := windows[windowId].(x := x, y := y);
      EditKeepsValid(windows, order, nextWindowId, nextZIndex, windowId, w);
      PutWindow(w);
      r := Pass;
    }

    method ResizeWindow(windowId: WindowId, width: int, height: int) returns (r: Outcome<AmError>)
      requires Valid()
      modifies this`windows, this`order
      ensures Valid() && order == old(order)
      ensures windowId !in old(windows) ==> r == Fail(WindowNotFound(windowId)) && windows == old(windows)
      ensures windowId in old(windows) ==> r.Pass? && windows == Resized(old(windows), windowId, width, height)
    {
      if windowId !in windows {
        return Fail(WindowNotFound(windowId));
      }
      var config := DefaultWindowConfig();
      var w := windows[windowId].(width := ResizedWidth(config, width), height := ResizedHeight(config, height));
      EditKeepsValid(windows, order, nextWindowId, nextZIndex, windowId, w);
      PutWindow(w);
      r := Pass;
    }

    method UpdateWindowState(windowId: WindowId, patch: map<string, Value>) returns (r: Outcome<AmError>)
      requires Valid()
      modifies this`windows, this`order
      ensures Valid() && order == old(order)
      ensures windowId !in old(windows) ==> r == Fail(WindowNotFound(windowId)) && windows == old(windows)
      ensures windowId in old(windows) ==> r.Pass? && windows == StateUpdated(old(windows), windowId, patch)
    {
      if windowId !in windows {
        return Fail(WindowNotFound(windowId));
      }
      var w := windows[windowId].(state := windows[windowId].state + patch);
      EditKeepsValid(windows, order, nextWindowId, nextZIndex, windowId, w);
      PutWindow(w);
      r := Pass;
    }

    function GetWindow(windowId: WindowId): (r: Option<AppWindow>)
      reads this
      ensures r.Some? <==> windowId in windows
      ensures r.Some? ==> r.value == windows[windowId]
    {
      if windowId in windows then Some(windows[windowId]) else None
    }

    method LaunchApp(store: AppRegistry, pm: ProcessManager, appId: AppId, initialState: Option<map<string, Value>>,
                     now: int, x: int, y: int) returns (r: Result<WindowId, AmError>)
      requires Valid() && store.Valid() && pm.Valid()
      modifies this, store`apps, pm
      ensures Valid() && store.Valid() && pm.Valid()
      ensures appId !in old(store.apps) ==> r == Err(AppNotFound(appId)) && unchanged(this) && unchanged(store) && unchanged(pm)
      ensures appId in old(store.apps) && Reuses(old(pm.table), old(pm.order), old(windows), old(order), appId) ==>
        var w := FirstAppWindow(old(windows), old(order), appId).value;
        && r == Ok(w.id) && w.id in old(windows)
        && windows == FocusedOn(old(windows), w.id, old(nextZIndex)) && nextZIndex == old(nextZIndex) + 1
        && order == old(order) && nextWindowId == old(nextWindowId) && unchanged(store) && unchanged(pm)
      ensures appId in old(store.apps) && !Reuses(old(pm.table), old(pm.order), old(windows), old(order), appId) ==>
        var app := old(store.apps)[appId];
        var w := NewWindow(app, old(nextWindowId), old(nextZIndex), x, y, initialState);
        var p := LaunchedProcess(app, old(pm.nextPid), initialState, now);
        && r == Ok(w.id)
        && windows == Registered(old(windows), w) && order == old(order) + [w.id]
        && nextZIndex == old(nextZIndex) + 1 && nextWindowId == old(nextWindowId) + 1
        && store.apps == old(store.apps)[appId := app.(isRunning := true)]
        && pm.State() == Spawned(old(pm.State()), old(pm.handlers), p) && pm.nextPid == old(pm.nextPid) + 1
        && pm.handlers == old(pm.handlers)
    {
      if appId !in store.apps {
        return Err(AppNotFound(appId));
      }
      var app := store.apps[appId];
      var existingProcess := ProcessByAppId(pm.table, pm.order, appId);
      if existingProcess.Some? {
        var existingWindow := FirstAppWindow(windows, order, appId);
        if existingWindow.Some? {
          FirstAppWindowExact(windows, order, appId);
          var _ := FocusWindow(existingWindow.value.id);
          return Ok(existingWindow.value.id);
        }
      }
      var id := StartApp(store, pm, app, initialState, now, x, y);
      r := Ok(id);
    }

    /** launchApp without a window to reuse: spawn the process, open the window, mark the app running. */
    method StartApp(store: AppRegistry, pm: ProcessManager, app: App, initialState: Option<map<string, Value>>,
                    now: int, x: int, y: int) returns (id: WindowId)
      requires Valid() && store.Valid() && pm.Valid() && app.id in store.apps && store.apps[app.id] == app
      modifies this, store`apps, pm
      ensures Valid() && store.Valid() && pm.Valid()
      ensures var w := NewWindow(app, old(nextWindowId), old(nextZIndex), x, y, initialState);
        && id == w.id
        && windows == Registered(old(windows), w) && order == old(order) + [w.id]
        && nextZIndex == old(nextZIndex) + 1 && nextWindowId == old(nextWindowId) + 1
      ensures store.apps == old(store.apps)[app.id := app.(isRunning := true)]
      ensures pm.State() == Spawned(old(pm.State()), old(pm.handlers), LaunchedProcess(app, old(pm.nextPid), initialState, now))
      ensures pm.nextPid == old(pm.nextPid) + 1 && pm.handlers == old(pm.handlers)
    {
      var env := map["initialState" := if initialState.Some? then Obj(initialState.value) else Undefined];
      var process := pm.Spawn(app.name, AppProcess, MetadataPatch(Some(app.id), None, Some(app.permissions), Some(env)), None, now);
      var w := OpenWindow(app, x, y, initialState);
      FlagKeepsAppsValid(store.apps, store.nextAppId, app.id, true);
      store.Save(app.(isRunning := true));
      id := w.id;
    }

    /** launchApp's `createWindow` followed by `windows.set(window.id, window)`. */
    method OpenWindow(app: App, x: int, y: int, initialState: Option<map<string, Value>>) returns (w: AppWindow)
      requires Valid()
      modifies this`windows, this`order, this`nextZIndex, this`nextWindowId
      ensures Valid()
      ensures w == NewWindow(app, old(nextWindowId), old(nextZIndex), x, y, initialState)
      ensures windows == Registered(old(windows), w) && order == old(order) + [w.id]
      ensures nextZIndex == old(nextZIndex) + 1 && nextWindowId == old(nextWindowId) + 1
    {
      RegisterKeepsValid(windows, order, nextWindowId, nextZIndex, NewWindow(app, nextWindowId, nextZIndex, x, y, initialState));
      w := CreateWindow(app, x, y, initialState);
      PutWindow(w);
    }

    method CloseApp(store: AppRegistry, pm: ProcessManager, appId: AppId, fuel: nat) returns (r: Outcome<AmError>)
      requires Valid() && store.Valid() && pm.Valid()
      modifies this`windows, this`order, store`apps, pm
      ensures Valid() && store.Valid() && pm.Valid()
      ensures appId !in old(store.apps) ==> r == Fail(AppNotFound(appId)) && unchanged(this) && unchanged(store) && unchanged(pm)
      ensures appId in old(store.apps) ==> windows == WithoutApp(old(windows), appId)
      ensures appId in old(store.apps) ==> store.apps == old(store.apps) || store.apps == StoppedApp(old(store.apps), appId)
      ensures appId in old(store.apps) && ProcessByAppId(old(pm.table), old(pm.order), appId).None? ==>
        r.Pass? && unchanged(pm)
      ensures appId in old(store.apps) && ProcessByAppId(old(pm.table), old(pm.order), appId).Some? ==>
        var (kr, ks) := KillEffect(old(pm.State()), old(pm.handlers), ProcessByAppId(old(pm.table), old(pm.order), appId).value.pid, fuel);
        && pm.State() == ks
        && (kr.Fail? ==> r == Fail(ProcessFailed(kr.error)))
        && (kr.Pass? ==> r.Pass?)
      ensures r.Pass? ==> store.apps == StoppedApp(old(store.apps), appId)
    {
      if appId !in store.apps {
        return Fail(AppNotFound(appId));
      }
      var app := store.apps[appId];
      CloseAppWindows(store, appId);
      var process := ProcessByAppId(pm.table, pm.order, appId);
      if process.Some? {
        var kr := pm.Kill(process.value.pid, fuel);
        if kr.Fail? {
          return Fail(ProcessFailed(kr.error));
        }
      }
      FlagKeepsAppsValid(old(store.apps), store.nextAppId, appId, false);
      StopOnce(old(store.apps), store.apps, appId);
      store.Save(app.(isRunning := false));
      r := Pass;
    }

    /** One round of closeApp's loop: `closeWindow` on a window of the app, held under its id if still open. */
    method CloseListed(store: AppRegistry, appId: AppId, w: AppWindow, ghost apps: AppStore)
      requires Valid() && store.Valid() && appId in apps
      requires w.appId == appId && (w.id in windows ==> windows[w.id] == w)
      requires store.apps == apps || store.apps == StoppedApp(apps, appId)
      modifies this`windows, this`order, store`apps
      ensures Valid() && store.Valid()
      ensures windows == old(windows) - {w.id}
      ensures store.apps == apps || store.apps == StoppedApp(apps, appId)
    {
      ghost var apps0: AppStore := store.apps;
      var _ := CloseWindow(store, w.id);
      if w.id in old(windows) {
        StoppedAgain(apps, apps0, windows, appId);
      } else {
        assert old(windows) - {w.id} == old(windows);
      }
    }

    /** closeApp's loop: `closeWindow` on each window the filter found. */
    method CloseAppWindows(store: AppRegistry, appId: AppId)
      requires Valid() && store.Valid() && appId in store.apps
      modifies this`windows, this`order, store`apps
      ensures Valid() && store.Valid()
      ensures windows == WithoutApp(old(windows), appId)
      ensures store.apps == old(store.apps) || store.apps == StoppedApp(old(store.apps), appId)
    {
      var appWindows := AppWindows(windows, order, appId);
      AppWindowsStored(windows, order, appId);
      var i := 0;
      while i < |appWindows|
        invariant 0 <= i <= |appWindows|
        invariant Valid() && store.Valid()
        invariant windows == old(windows) - Ids(appWindows[..i])
        invariant store.apps == old(store.apps) || store.apps == StoppedApp(old(store.apps), appId)
      {
        ghost var ws0: Windows := windows;
        assert appWindows[i].id in old(windows) && old(windows)[appWindows[i].id] == appWindows[i];
        CloseListed(store, appId, appWindows[i], old(store.apps));
        IdsStep(old(windows), appWindows, i, ws0, windows);
        i := i + 1;
      }
      CloseAppWindowsGone(old(windows), old(order), appId, windows);
    }

    method UninstallApp(store: AppRegistry, pm: ProcessManager, appId: AppId, fuel: nat) returns (r: Outcome<AmError>)
      requires Valid() && store.Valid() && pm.Valid()
      modifies this`windows, this`order, store`apps, pm
      ensures Valid() && store.Valid() && pm.Valid()
      ensures appId !in old(store.apps) ==> r == Fail(AppNotFound(appId)) && unchanged(this) && unchanged(store) && unchanged(pm)
      ensures appId in old(store.apps) && old(store.apps)[appId].isBuiltIn ==>
        r == Fail(BuiltInNotRemovable) && unchanged(this) && unchanged(store) && unchanged(pm)
      ensures appId in old(store.apps) && !old(store.apps)[appId].isBuiltIn && !old(store.apps)[appId].isRunning ==>
        r.Pass? && store.apps == old(store.apps) - {appId} && unchanged(this) && unchanged(pm)
      ensures r.Pass? ==> appId in old(store.apps) && store.apps == old(store.apps) - {appId}
    {
      if appId !in store.apps {
        return Fail(AppNotFound(appId));
      }
      var app := store.apps[appId];
      if app.isBuiltIn {
        return Fail(BuiltInNotRemovable);
      }
      if app.isRunning {
        r := CloseApp(store, pm, appId, fuel);
        if r.Fail? {
          return;
        }
      }
      store.Delete(appId);
      r := Pass;
    }
  }


  /** The filter over the Map's values lists windows of the app, each stored under its id. */
  lemma AppWindowsStored(ws: Windows, order: seq<WindowId>, appId: AppId)
    requires Ordered(ws, order) && forall k :: k in ws ==> ws[k].id == k
    ensures forall i :: 0 <= i < |AppWindows(ws, order, appId)| ==>
      var w := AppWindows(ws, order, appId)[i]; w.id in ws && ws[w.id] == w && w.appId == appId
  {
    AppWindowsMembers(ws, order, appId);
  }

  /** Stopping an app a second time changes nothing. */
  lemma StoppedAgain(apps: AppStore, apps0: AppStore, ws: Windows, appId: AppId)
    requires appId in apps && (apps0 == apps || apps0 == StoppedApp(apps, appId))
    ensures AfterLastWindow(apps0, ws, appId) == apps || AfterLastWindow(apps0, ws, appId) == StoppedApp(apps, appId)
  {
    if apps0 == StoppedApp(apps, appId) {
      assert StoppedApp(apps0, appId) == apps0;
    }
  }

  /** Whether or not the last closed window already stopped the app, closeApp's save stops it. */
  lemma StopOnce(apps: AppStore, apps1: AppStore, appId: AppId)
    requires appId in apps && (apps1 == apps || apps1 == StoppedApp(apps, appId))
    ensures apps1[appId := apps[appId].(isRunning := false)] == StoppedApp(apps, appId)
  {
  }

  /** One more closed window: the map loses its key, which joins the closed ids. */
  lemma IdsStep(ws: Windows, aw: seq<AppWindow>, i: nat, before: Windows, after: Windows)
    requires i < |aw| && before == ws - Ids(aw[..i]) && after == before - {aw[i].id}
    ensures after == ws - Ids(aw[..i + 1])
  {
    assert aw[..i + 1][..i] == aw[..i];
  }

  /** The filter's windows are exactly the app's windows, so closing each of them leaves WithoutApp. */
  lemma CloseAppWindowsGone(ws: Windows, order: seq<WindowId>, appId: AppId, ws': Windows)
    requires Ordered(ws, order) && forall k :: k in ws ==> ws[k].id == k
    requires ws' == ws - Ids(AppWindows(ws, order, appId)[..|AppWindows(ws, order, appId)|])
    ensures ws' == WithoutApp(ws, appId)
  {
    var aw := AppWindows(ws, order, appId);
    assert aw[..|aw|] == aw;
    AppWindowsStored(ws, order, appId);
    var vs := Values(ws, order);
    IdsMembers(aw);
    forall k | k in ws && ws[k].appId == appId ensures k in Ids(aw) {
      var i :| 0 <= i < |order| && order[i] == k;
      assert vs[i] == ws[k] && OfApp(appId)(vs[i]);
      assert ws[k] in aw;
      var j :| 0 <= j < |aw| && aw[j] == ws[k];
    }
  }
}
