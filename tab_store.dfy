/**
 * The tab registry of the terminal's front end (`useTabStore` in
 * `src/stores/tabStore.js`): at most eight connection tabs, each a serial
 * terminal, a TCP client, a TCP server or a Modbus master. The store keeps
 * the tabs in a JavaScript `Map` (keys in insertion order), a separate
 * display order `tabOrder`, the id of the active tab and the counter that
 * numbers new tabs `tab-1`, `tab-2`, ...
 */
module TabStore {
  import opened Wrappers
  import opened Text

  const MAX_TABS: nat := 8

  // ---------------------------------------------------------------- connection types

  /** `CONNECTION_TYPES`. */
  datatype ConnectionType = Serial | TcpClient | TcpServer | Modbus

  /** The string each connection type is stored and passed as. */
  function ConnectionTypeName(t: ConnectionType): (s: string)
    ensures |s| > 0
  {
    match t
    case Serial => "serial"
    case TcpClient => "tcp_client"
    case TcpServer => "tcp_server"
    case Modbus => "modbus"
  }

  /** Different connection types are passed as different strings. */
  lemma ConnectionTypeNameInjective(a: ConnectionType, b: ConnectionType)
    requires ConnectionTypeName(a) == ConnectionTypeName(b)
    ensures a == b
  {
    assert ConnectionTypeName(a)[..5] == ConnectionTypeName(b)[..5];
  }

  // ---------------------------------------------------------------- tab records

  /** The terminal part of `createBaseTabState`: traffic, auto-send and display settings. */
  datatype Terminal = Terminal(
    terminalData: seq<string>,
    txCount: nat, rxCount: nat, totalTxCount: nat, totalRxCount: nat,
    inputMessage: string,
    autoSendEnabled: bool, autoSendInterval: nat, autoSendCount: nat,
    autoSendCurrentMessage: string,
    /** The handle of a running `setInterval`, or `null`. */
    autoSendTimer: Option<nat>,
    autoSendInProgress: bool,
    displayMode: string, sendAsHex: bool, autoScroll: bool, lineEnding: string)

  /**
   * One tab's state, by connection type. Serial, TCP client and TCP server
   * tabs extend the base state; a Modbus tab is built without it.
   */
  datatype Tab =
    | SerialTab(id: string, isConnected: bool, terminal: Terminal,
                selectedPort: string, baudRate: nat, dataBits: nat, stopBits: string, parity: string,
                dtr: bool, rts: bool, byteDelay: nat)
    | TcpClientTab(id: string, isConnected: bool, terminal: Terminal,
                   host: string, port: nat, connectionId: string,
                   connectionStatus: string, statusMessage: Option<string>, isReconnecting: bool)
    | TcpServerTab(id: string, isConnected: bool, terminal: Terminal,
                   listenPort: nat, bindAddress: string, serverId: string, maxClients: nat,
                   connectedClients: seq<string>, selectedClientId: Option<string>,
                   statusMessage: Option<string>, echoEnabled: bool)
    | ModbusTab(id: string, isConnected: bool, connectionId: string,
                /** Set by the Modbus views once connected; absent at creation. */
                modbusConnectionId: Option<string>,
                mode: string, selectedPort: string, baudRate: nat, dataBits: nat, stopBits: string,
                parity: string, slaveId: nat, host: string, port: nat, unitId: nat,
                responseTimeout: nat, functionCode: nat, startAddress: nat, quantity: nat,
                writeValues: seq<nat>, coilValues: seq<bool>, dataFormat: string, maxLogEntries: nat,
                pollingEnabled: bool, pollingInterval: nat,
                connectionStatus: string, lastResponseTime: Option<nat>, statusMessage: Option<string>)
  {
    /** The tab's `connectionType` field. */
    function Kind(): ConnectionType {
      match this
      case SerialTab(_, _, _, _, _, _, _, _, _, _, _) => Serial
      case TcpClientTab(_, _, _, _, _, _, _, _, _) => TcpClient
      case TcpServerTab(_, _, _, _, _, _, _, _, _, _, _) => TcpServer
      case ModbusTab(_, _, _, _, _, _, _, _, _, _, _, _, _, _, _, _, _, _, _, _, _, _, _, _, _, _, _) => Modbus
    }

    /** `tab.autoSendTimer`: a Modbus tab has no such field. */
    function AutoSendTimer(): Option<nat> {
      if ModbusTab? then None else terminal.autoSendTimer
    }
  }

  /** `createBaseTabState`: nothing sent or received, auto-send off, text display. */
  function BaseTabState(): (t: Terminal)
    ensures t.terminalData == [] && t.txCount == 0 && t.rxCount == 0
    ensures t.totalTxCount == 0 && t.totalRxCount == 0
    ensures !t.autoSendEnabled && t.autoSendTimer.None? && !t.autoSendInProgress
  {
    Terminal([], 0, 0, 0, 0, "", false, 1000, 0, "", None, false, "text", false, true, "CR")
  }

  /** `createSerialTabState`: no port chosen yet, 115200 baud 8N1. */
  function SerialTabState(id: string): (t: Tab)
    ensures t.Kind() == Serial && t.id == id && !t.isConnected && t.selectedPort == ""
    ensures t.terminal == BaseTabState()
  {
    SerialTab(id, false, BaseTabState(), "", 115200, 8, "1", "none", false, false, 0)
  }

  /** `createTcpClientTabState`: the tab's own id is its connection id. */
  function TcpClientTabState(id: string): (t: Tab)
    ensures t.Kind() == TcpClient && t.id == id && !t.isConnected && t.connectionId == id
    ensures t.terminal == BaseTabState()
  {
    TcpClientTab(id, false, BaseTabState(), "localhost", 8080, id, "idle", None, false)
  }

  /** `createTcpServerTabState`: the tab's own id is its server id. */
  function TcpServerTabState(id: string): (t: Tab)
    ensures t.Kind() == TcpServer && t.id == id && !t.isConnected && t.serverId == id
    ensures t.terminal == BaseTabState() && t.connectedClients == [] && t.selectedClientId.None?
  {
    TcpServerTab(id, false, BaseTabState(), 5000, "0.0.0.0", id, 20, [], None, None, false)
  }

  /** `createModbusTabState`: RTU at 9600 baud even parity, reading ten holding registers from address 0. */
  function ModbusTabState(id: string): (t: Tab)
    ensures t.Kind() == Modbus && t.id == id && !t.isConnected && t.connectionId == id
    ensures t.modbusConnectionId.None? && t.AutoSendTimer().None?
  {
    ModbusTab(id, false, id, None, "rtu", "", 9600, 8, "1", "even", 1, "localhost", 502, 1,
              1000, 3, 0, 10, [], [], "unsigned", 100, false, 1000, "idle", None, None)
  }

  /** The `switch` of `createTab`: an unrecognised type gets a serial tab. */
  function NewTabState(connectionType: string, id: string): (t: Tab)
    ensures t.id == id && !t.isConnected && t.AutoSendTimer().None?
    ensures forall k: ConnectionType :: connectionType == ConnectionTypeName(k) ==> t.Kind() == k
    ensures connectionType !in {"tcp_client", "tcp_server", "modbus"} ==> t == SerialTabState(id)
  {
    if connectionType == "tcp_client" then TcpClientTabState(id)
    else if connectionType == "tcp_server" then TcpServerTabState(id)
    else if connectionType == "modbus" then ModbusTabState(id)
    else SerialTabState(id)
  }

  // ---------------------------------------------------------------- tab ids

  /** `` `tab-${n}` ``. */
  function TabId(n: nat): string {
    "tab-" + DecimalString(n)
  }

  /** Different counter values give different ids. */
  lemma TabIdInjective(m: nat, n: nat)
    requires TabId(m) == TabId(n)
    ensures m == n
  {
    assert DecimalString(m) == TabId(m)[4..] == TabId(n)[4..] == DecimalString(n);
    DecimalStringInjective(m, n);
  }

  /** No id the counter would hand out after `n` is a key yet. */
  ghost predicate NoFutureIds(tabs: map<string, Tab>, n: nat) {
    forall k: nat :: k > n ==> TabId(k) !in tabs
  }

  /** Storing the tab for the next id keeps the later ids free. */
  lemma NextIdStaysFree(tabs: map<string, Tab>, n: nat, tab: Tab)
    requires NoFutureIds(tabs, n)
    ensures TabId(n + 1) !in tabs
    ensures NoFutureIds(tabs[TabId(n + 1) := tab], n + 1)
  {
    forall k: nat | k > n + 1
      ensures TabId(k) != TabId(n + 1)
    {
      if TabId(k) == TabId(n + 1) {
        TabIdInjective(k, n + 1);
      }
    }
  }

  // ---------------------------------------------------------------- sequences of ids

  /** No id occurs twice (stated head first, so that only one step unfolds at a time). */
  predicate Distinct(s: seq<string>) {
    |s| == 0 || (s[0] !in s[1..] && Distinct(s[1..]))
  }

  /** `Distinct` is the usual pairwise statement. */
  lemma {:induction false} DistinctIndices(s: seq<string>)
    ensures Distinct(s) <==> forall i, j :: 0 <= i < j < |s| ==> s[i] != s[j]
  {
    if |s| > 0 {
      DistinctIndices(s[1..]);
      assert forall i :: 1 <= i < |s| ==> s[1..][i - 1] == s[i];
    }
  }

  /** The ids a list holds, as a set. */
  function Elements(s: seq<string>): set<string> {
    if |s| == 0 then {} else {s[0]} + Elements(s[1..])
  }

  /** `Elements` holds exactly the list's members. */
  lemma {:induction false} ElementsMember(s: seq<string>, x: string)
    ensures x in Elements(s) <==> x in s
  {
    if |s| > 0 {
      ElementsMember(s[1..], x);
      assert s == [s[0]] + s[1..];
    }
  }

  lemma ElementsAll(s: seq<string>)
    ensures forall x :: x in Elements(s) <==> x in s
  {
    forall x
      ensures x in Elements(s) <==> x in s
    {
      ElementsMember(s, x);
    }
  }

  /** A list of the map's keys, each exactly once: the shape of `tabOrder` and of the Map's key order. */
  predicate ListsKeys(order: seq<string>, tabs: map<string, Tab>) {
    Distinct(order) && Elements(order) == tabs.Keys
  }

  /** Each listed id is a non-empty key whose tab carries that id. */
  ghost predicate IdsMatch(order: seq<string>, tabs: map<string, Tab>) {
    |order| == 0 ||
    (order[0] in tabs && tabs[order[0]].id == order[0] && order[0] != "" && IdsMatch(order[1..], tabs))
  }

  /** `IdsMatch` is the position-wise statement. */
  lemma {:induction false} IdsMatchAll(order: seq<string>, tabs: map<string, Tab>)
    ensures IdsMatch(order, tabs) <==>
            forall i :: 0 <= i < |order| ==> order[i] in tabs && tabs[order[i]].id == order[i] && order[i] != ""
  {
    if |order| > 0 {
      IdsMatchAll(order[1..], tabs);
      assert forall i :: 1 <= i < |order| ==> order[1..][i - 1] == order[i];
    }
  }

  /** `s.indexOf(x)`: the first position of `x`, or -1. */
  function IndexOf(s: seq<string>, x: string): (r: int)
    ensures -1 <= r < |s|
    ensures r == -1 <==> x !in s
    ensures r >= 0 ==> s[r] == x && forall j :: 0 <= j < r ==> s[j] != x
  {
    if |s| == 0 then -1
    else if s[0] == x then 0
    else
      var r := IndexOf(s[1..], x);
      if r == -1 then -1 else r + 1
  }

  /** `s.splice(k, 1)` on a list without repeats removes exactly `s[k]`. */
  lemma {:induction false} SpliceRemoves(s: seq<string>, k: nat)
    requires Distinct(s) && k < |s|
    ensures Distinct(s[..k] + s[k + 1..])
    ensures forall y :: y in s[..k] + s[k + 1..] <==> y in s && y != s[k]
  {
    assert s == [s[0]] + s[1..];
    if k == 0 {
      assert s[..k] + s[k + 1..] == s[1..];
    } else {
      SpliceRemoves(s[1..], k - 1);
      assert s[..k] + s[k + 1..] == [s[0]] + (s[1..][..k - 1] + s[1..][k..]);
    }
  }

  /** `indexOf` then `splice(k, 1)` when found: the list without the first occurrence of `x`. */
  function Without(s: seq<string>, x: string): (r: seq<string>)
    ensures |r| == if x in s then |s| - 1 else |s|
  {
    var k := IndexOf(s, x);
    if k > -1 then s[..k] + s[k + 1..] else s
  }

  // ---------------------------------------------------------------- scans over the Map

  /** The position, in Map insertion order, of the first tab `matches` accepts, or -1. */
  function FirstMatchIndex(order: seq<string>, tabs: map<string, Tab>, matches: Tab -> bool): (r: int)
    requires forall id :: id in order ==> id in tabs
    ensures -1 <= r < |order|
    ensures r == -1 <==> forall i :: 0 <= i < |order| ==> !matches(tabs[order[i]])
    ensures r >= 0 ==> matches(tabs[order[r]]) && forall j :: 0 <= j < r ==> !matches(tabs[order[j]])
  {
    if |order| == 0 then -1
    else if matches(tabs[order[0]]) then 0
    else
      var r := FirstMatchIndex(order[1..], tabs, matches);
      assert forall i :: 1 <= i < |order| ==> order[1..][i - 1] == order[i];
      if r == -1 then -1 else r + 1
  }

  /** The first tab, in Map insertion order, that `matches` accepts (the `for ... of tabs` loops). */
  function FirstMatch(order: seq<string>, tabs: map<string, Tab>, matches: Tab -> bool): (r: Option<Tab>)
    requires forall id :: id in order ==> id in tabs
    ensures r.Some? <==> exists i :: 0 <= i < |order| && matches(tabs[order[i]])
    ensures r.Some? ==> (
              matches(r.value) &&
              exists i :: 0 <= i < |order| && r.value == tabs[order[i]] &&
                forall j :: 0 <= j < i ==> !matches(tabs[order[j]]))
  {
    var k := FirstMatchIndex(order, tabs, matches);
    if k == -1 then None else Some(tabs[order[k]])
  }

  /** Whether any tab, scanned in Map insertion order, is accepted by `matches`. */
  function AnyMatch(order: seq<string>, tabs: map<string, Tab>, matches: Tab -> bool): (b: bool)
    requires forall id :: id in order ==> id in tabs
    ensures b <==> exists i :: 0 <= i < |order| && matches(tabs[order[i]])
  {
    if |order| == 0 then false
    else if matches(tabs[order[0]]) then true
    else
      assert forall i :: 1 <= i < |order| ==> order[1..][i - 1] == order[i];
      AnyMatch(order[1..], tabs, matches)
  }

  /** A connected serial tab on `portName`. */
  predicate OnPort(t: Tab, portName: string) {
    t.SerialTab? && t.selectedPort == portName && t.isConnected
  }

  /** The event routing of `getTabByConnectionId`: client and Modbus by `connectionId`, server by `serverId`. */
  predicate RoutesConnection(t: Tab, connectionId: string) {
    (t.TcpClientTab? && t.connectionId == connectionId) ||
    (t.TcpServerTab? && t.serverId == connectionId) ||
    (t.ModbusTab? && t.connectionId == connectionId)
  }

  /** The Modbus routing of `getModbusTabByConnectionId`: own id or the stored Modbus connection id. */
  predicate RoutesModbus(t: Tab, connectionId: string) {
    t.ModbusTab? && (t.connectionId == connectionId || t.modbusConnectionId == Some(connectionId))
  }

  /** The selected ports of connected serial tabs, in Map insertion order (`getConnectedPorts`). */
  function ConnectedPorts(order: seq<string>, tabs: map<string, Tab>): (ports: seq<string>)
    requires forall id :: id in order ==> id in tabs
    ensures forall p :: p in ports <==> p != "" && exists i :: 0 <= i < |order| && OnPort(tabs[order[i]], p)
    ensures |ports| <= |order|
    ensures |order| == 1 ==>
              ports == (if tabs[order[0]].SerialTab? && tabs[order[0]].isConnected && tabs[order[0]].selectedPort != ""
                        then [tabs[order[0]].selectedPort] else [])
  {
    if |order| == 0 then []
    else
      assert forall i :: 0 <= i < |order| - 1 ==> order[..|order| - 1][i] == order[i];
      var t := tabs[order[|order| - 1]];
      ConnectedPorts(order[..|order| - 1], tabs) +
        (if t.SerialTab? && t.isConnected && t.selectedPort != "" then [t.selectedPort] else [])
  }

  /**
   * The ports follow the scan order: the ports of a concatenated order are
   * those of each part, one entry per connected tab, repeats kept.
   */
  lemma {:induction false} ConnectedPortsAppend(a: seq<string>, b: seq<string>, tabs: map<string, Tab>)
    requires forall id :: id in a + b ==> id in tabs
    ensures ConnectedPorts(a + b, tabs) == ConnectedPorts(a, tabs) + ConnectedPorts(b, tabs)
    decreases |b|
  {
    if |b| == 0 {
      assert a + b == a;
    } else {
      var b' := b[..|b| - 1];
      assert (a + b)[..|a + b| - 1] == a + b';
      assert (a + b)[|a + b| - 1] == b[|b| - 1];
      ConnectedPortsAppend(a, b', tabs);
    }
  }

  /**
   * The focus after `closeTab` removes `tabId` from the display order
   * `order`: unchanged unless `tabId` was active; then the tab before it, or
   * the new first tab when it was first, or nobody when it was the only tab.
   */
  function FocusAfterClose(order: seq<string>, tabId: string, active: Option<string>): (r: Option<string>)
    requires Distinct(order)
    ensures active != Some(tabId) ==> r == active
    ensures active == Some(tabId) && tabId in order ==> (r.None? <==> |order| == 1)
    ensures active == Some(tabId) && r.Some? ==> r.value in order && r.value != tabId
    ensures active == Some(tabId) && tabId in order && "" !in order ==> (
              var k := IndexOf(order, tabId);
              if |order| == 1 then r.None?
              else if k > 0 then r == Some(order[k - 1])
              else r == Some(order[1]))
  {
    if active != Some(tabId) then active
    else
      var orderIndex := IndexOf(order, tabId);
      var rest := if orderIndex > -1 then order[..orderIndex] + order[orderIndex + 1..] else order;
      if |rest| > 0 then
        var newIndex := if orderIndex - 1 > 0 then orderIndex - 1 else 0;
        var first := rest[0];
        var next := rest[newIndex];
        assert next in order && next != tabId by {
          if orderIndex > -1 {
            SplicedElement(order, orderIndex, newIndex);
            SplicedElement(order, orderIndex, 0);
          }
        }
        assert first in order && first != tabId by {
          if orderIndex > -1 {
            SplicedElement(order, orderIndex, 0);
          }
        }
        Some(if next != "" then next else first)
      else None
  }

  // ---------------------------------------------------------------- the store

  /**
   * At most eight tabs; `tabOrder` lists the Map's keys without repeats, in
   * the Map's own insertion order; each tab is stored under its own
   * (non-empty) id; no id the counter will hand out later is in use; and the
   * active id is absent exactly when there are no tabs.
   */
  ghost predicate StoreInvariant(tabs: map<string, Tab>, entryOrder: seq<string>, tabOrder: seq<string>,
                                 activeTabId: Option<string>, tabIdCounter: nat)
  {
    |tabs| <= MAX_TABS &&
    ListsKeys(tabOrder, tabs) && entryOrder == tabOrder &&
    IdsMatch(tabOrder, tabs) &&
    NoFutureIds(tabs, tabIdCounter) &&
    (activeTabId.None? <==> |tabs| == 0) &&
    (activeTabId.Some? ==> activeTabId.value in tabs)
  }

  /** Adding the counter's next id to a store with room keeps the invariant. */
  lemma CreateKeepsInvariant(tabs: map<string, Tab>, entryOrder: seq<string>, tabOrder: seq<string>,
                             activeTabId: Option<string>, tabIdCounter: nat, connectionType: string,
                             id: string, tab: Tab)
    requires StoreInvariant(tabs, entryOrder, tabOrder, activeTabId, tabIdCounter) && |tabs| < MAX_TABS
    requires id == TabId(tabIdCounter + 1) && tab == NewTabState(connectionType, id)
    ensures id !in tabs
    ensures StoreInvariant(tabs[id := tab], entryOrder + [id], tabOrder + [id], Some(id), tabIdCounter + 1)
  {
    NextIdStaysFree(tabs, tabIdCounter, tab);
    InsertGrowsByOne(tabs, id, tab);
    KeysAppended(tabs, tabOrder, id, tab);
    IdsAppended(tabs, tabOrder, id, tab);
  }

  /**
   * Removing a live key from the map and from both orders, with a focus that
   * stays put unless it was on the removed tab, keeps the invariant.
   */
  lemma CloseKeepsInvariant(tabs: map<string, Tab>, entryOrder: seq<string>, tabOrder: seq<string>,
                            activeTabId: Option<string>, tabIdCounter: nat, tabId: string)
    requires StoreInvariant(tabs, entryOrder, tabOrder, activeTabId, tabIdCounter) && tabId in tabs
    ensures StoreInvariant(tabs - {tabId}, Without(entryOrder, tabId), Without(tabOrder, tabId),
                           FocusAfterClose(tabOrder, tabId, activeTabId), tabIdCounter)
  {
    var active := FocusAfterClose(tabOrder, tabId, activeTabId);
    KeysSpliced(tabs, tabOrder, tabId);
    ElementsMember(tabOrder, tabId);
    IdsSpliced(tabs, tabOrder, tabId);
    CloseCount(tabs, tabId);
    DistinctCount(tabOrder, tabs);
    RemoveKeepsFutureFree(tabs, tabIdCounter, tabId);
    if active.Some? {
      ElementsMember(tabOrder, active.value);
    }
    if activeTabId.Some? && activeTabId != Some(tabId) {
      assert activeTabId.value in tabs - {tabId};
    }
  }

  /** Splicing a key out of a list of the map's keys lists the keys of the reduced map. */
  lemma KeysSpliced(tabs: map<string, Tab>, order: seq<string>, tabId: string)
    requires ListsKeys(order, tabs) && tabId in tabs
    ensures ListsKeys(Without(order, tabId), tabs - {tabId})
  {
    var k := IndexOf(order, tabId);
    ElementsMember(order, tabId);
    ElementsAll(order);
    ElementsAll(Without(order, tabId));
    SpliceRemoves(order, k);
    assert Elements(Without(order, tabId)) == (tabs - {tabId}).Keys;
  }

  /** An element of `s.splice(k, 1)` is an element of `s` other than `s[k]`. */
  lemma SplicedElement(s: seq<string>, k: nat, i: nat)
    requires Distinct(s) && k < |s| && i < |s| - 1
    ensures (s[..k] + s[k + 1..])[i] == if i < k then s[i] else s[i + 1]
    ensures (s[..k] + s[k + 1..])[i] in s && (s[..k] + s[k + 1..])[i] != s[k]
  {
    DistinctIndices(s);
    var j := if i < k then i else i + 1;
    assert (s[..k] + s[k + 1..])[i] == s[j];
  }

  /** Removing a key keeps the later ids free. */
  lemma RemoveKeepsFutureFree(tabs: map<string, Tab>, n: nat, tabId: string)
    requires NoFutureIds(tabs, n)
    ensures NoFutureIds(tabs - {tabId}, n)
  {
  }

  /** Inserting a new key grows the map by one. */
  lemma InsertGrowsByOne(tabs: map<string, Tab>, id: string, tab: Tab)
    requires id !in tabs
    ensures |tabs[id := tab]| == |tabs| + 1
  {
    assert tabs[id := tab].Keys == tabs.Keys + {id};
  }

  /** Appending a new key to a list of the map's keys lists the keys of the extended map. */
  lemma KeysAppended(tabs: map<string, Tab>, order: seq<string>, id: string, tab: Tab)
    requires ListsKeys(order, tabs) && id !in tabs
    ensures ListsKeys(order + [id], tabs[id := tab])
  {
    ElementsAll(order);
    ElementsAll(order + [id]);
    DistinctIndices(order);
    DistinctIndices(order + [id]);
    assert Elements(order + [id]) == tabs[id := tab].Keys;
  }

  /** A key's tab carries that key as its id, and the key is not empty. */
  lemma IdsKey(order: seq<string>, tabs: map<string, Tab>, id: string)
    requires ListsKeys(order, tabs) && IdsMatch(order, tabs) && id in tabs
    ensures tabs[id].id == id && id != ""
  {
    ElementsMember(order, id);
    IdsMatchAll(order, tabs);
  }

  /** Appending a fresh key whose tab carries it keeps the ids matched. */
  lemma IdsAppended(tabs: map<string, Tab>, order: seq<string>, id: string, tab: Tab)
    requires IdsMatch(order, tabs) && id !in tabs && tab.id == id && id != ""
    ensures IdsMatch(order + [id], tabs[id := tab])
  {
    IdsMatchAll(order, tabs);
    IdsMatchAll(order + [id], tabs[id := tab]);
  }

  /** Splicing a key out of the list and the map keeps the ids matched. */
  lemma IdsSpliced(tabs: map<string, Tab>, order: seq<string>, tabId: string)
    requires Distinct(order) && IdsMatch(order, tabs) && tabId in order
    ensures IdsMatch(Without(order, tabId), tabs - {tabId})
  {
    var k := IndexOf(order, tabId);
    IdsMatchAll(order, tabs);
    IdsMatchAll(Without(order, tabId), tabs - {tabId});
    var rest := order[..k] + order[k + 1..];
    forall i | 0 <= i < |rest|
      ensures rest[i] in order && rest[i] != tabId
    {
      SplicedElement(order, k, i);
    }
  }


  /** The store object `useTabStore` returns (one instance per application). */
  class TabStore {
    /** The `tabs` Map's entries. */
    var tabs: map<string, Tab>
    /** The `tabs` Map's key order: insertion order, which its `for ... of` loops follow. */
    var entryOrder: seq<string>
    /** `tabOrder`: the display order. */
    var tabOrder: seq<string>
    var activeTabId: Option<string>
    /** The module-level `tabIdCounter`. */
    var tabIdCounter: nat
    /** Every handle passed to `clearInterval`, in order. */
    var clearedTimers: seq<nat>

    /** The store's fields satisfy `StoreInvariant`. */
    ghost predicate Valid()
      reads this
    {
      StoreInvariant(tabs, entryOrder, tabOrder, activeTabId, tabIdCounter)
    }

    constructor ()
      ensures Valid()
      ensures tabs == map[] && entryOrder == [] && tabOrder == [] && activeTabId.None?
      ensures tabIdCounter == 0 && clearedTimers == []
    {
      tabs, entryOrder, tabOrder, activeTabId := map[], [], [], None;
      tabIdCounter, clearedTimers := 0, [];
    }

    /** `activeTab`: `tabs.get(activeTabId)`. */
    function ActiveTab(): (t: Option<Tab>)
      requires Valid()
      reads this
      ensures t.Some? <==> |tabs| > 0
      ensures t.Some? ==> t.value.id == activeTabId.value && t.value == tabs[activeTabId.value]
    {
      if activeTabId.Some? then IdsKey(tabOrder, tabs, activeTabId.value); Some(tabs[activeTabId.value]) else None
    }

    /** `tabCount`. */
    function TabCount(): (n: nat)
      requires Valid()
      reads this
      ensures n <= MAX_TABS && n == |tabOrder|
    {
      DistinctCount(tabOrder, tabs);
      |tabs|
    }

    /** `canAddTab`. */
    function CanAddTab(): (b: bool)
      reads this
      ensures b <==> |tabs| < MAX_TABS
    {
      |tabs| < MAX_TABS
    }

    /**
     * `createTab`: when there is room, a tab of the requested type under a
     * fresh id, appended to both orders and made active; otherwise `null`
     * and nothing changes (the counter included).
     */
    method CreateTab(connectionType: string) returns (r: Option<string>)
      requires Valid()
      modifies this
      ensures Valid()
      ensures |old(tabs)| == MAX_TABS ==> r.None? && unchanged(this)
      ensures |old(tabs)| < MAX_TABS ==> r == Some(TabId(old(tabIdCounter) + 1)) && r.value !in old(tabs)
      ensures |old(tabs)| < MAX_TABS ==> tabIdCounter == old(tabIdCounter) + 1 && activeTabId == r
      ensures |old(tabs)| < MAX_TABS ==> tabs == old(tabs)[r.value := NewTabState(connectionType, r.value)]
      ensures |old(tabs)| < MAX_TABS ==> entryOrder == old(entryOrder) + [r.value] && tabOrder == old(tabOrder) + [r.value]
      ensures clearedTimers == old(clearedTimers)
    {
      if !CanAddTab() {
        return None;
      }
      var id := TabId(tabIdCounter + 1);
      var tab := NewTabState(connectionType, id);
      CreateKeepsInvariant(tabs, entryOrder, tabOrder, activeTabId, tabIdCounter, connectionType, id, tab);
      tabs, entryOrder, tabOrder, activeTabId, tabIdCounter :=
        tabs[id := tab], entryOrder + [id], tabOrder + [id], Some(id), tabIdCounter + 1;
      r := Some(id);
    }

    /**
     * `closeTab`: cancels the tab's auto-send timer, removes the tab from the
     * Map and from `tabOrder`, and when it was active hands focus to the tab
     * before it in `tabOrder`, else to the new first tab, else to nobody.
     * An unknown id changes nothing.
     */
    method CloseTab(tabId: string)
      requires Valid()
      modifies this
      ensures Valid()
      ensures tabId !in old(tabs) ==> unchanged(this)
      ensures tabId in old(tabs) ==> tabs == old(tabs) - {tabId} && tabIdCounter == old(tabIdCounter)
      ensures tabId in old(tabs) ==> tabOrder == Without(old(tabOrder), tabId)
      ensures tabId in old(tabs) ==> entryOrder == Without(old(entryOrder), tabId)
      ensures tabId in old(tabs) ==>
                clearedTimers == old(clearedTimers) +
                  (match old(tabs)[tabId].AutoSendTimer() case Some(h) => if h != 0 then [h] else [] case None => [])
      ensures tabId in old(tabs) ==> activeTabId == FocusAfterClose(old(tabOrder), tabId, old(activeTabId))
    {
      if tabId !in tabs {
        return;
      }
      var timer := tabs[tabId].AutoSendTimer();
      var cleared := clearedTimers;
      if timer.Some? && timer.value != 0 {
        cleared := cleared + [timer.value];
      }

      CloseKeepsInvariant(tabs, entryOrder, tabOrder, activeTabId, tabIdCounter, tabId);
      tabs, entryOrder, tabOrder, activeTabId, clearedTimers :=
        tabs - {tabId}, Without(entryOrder, tabId), Without(tabOrder, tabId),
        FocusAfterClose(tabOrder, tabId, activeTabId), cleared;
    }

    /** `setActiveTab`: only a live id can become active. */
    method SetActiveTab(tabId: string)
      requires Valid()
      modifies this
      ensures Valid()
      ensures tabs == old(tabs) && entryOrder == old(entryOrder) && tabOrder == old(tabOrder)
      ensures tabIdCounter == old(tabIdCounter) && clearedTimers == old(clearedTimers)
      ensures activeTabId == if tabId in tabs then Some(tabId) else old(activeTabId)
    {
      if tabId in tabs {
        activeTabId := Some(tabId);
      }
    }

    /** `getTabByPortName`: the first connected serial tab on the port, or `null`. */
    function GetTabByPortName(portName: string): (t: Option<Tab>)
      requires Valid()
      reads this
      ensures t.Some? <==> exists id :: id in tabs && OnPort(tabs[id], portName)
      ensures t.Some? ==> OnPort(t.value, portName)
      ensures t.Some? ==>
                exists i :: 0 <= i < |entryOrder| && entryOrder[i] in tabs && t.value == tabs[entryOrder[i]] &&
                  forall j :: 0 <= j < i ==> entryOrder[j] in tabs && !OnPort(tabs[entryOrder[j]], portName)
    {
      ElementsAll(entryOrder);
      FirstMatch(entryOrder, tabs, (t: Tab) => OnPort(t, portName))
    }

    /** `isPortConnected`. */
    function IsPortConnected(portName: string): (b: bool)
      requires Valid()
      reads this
      ensures b <==> exists id :: id in tabs && OnPort(tabs[id], portName)
    {
      ElementsAll(entryOrder);
      AnyMatch(entryOrder, tabs, (t: Tab) => OnPort(t, portName))
    }

    /** `getTabByConnectionId`. */
    function GetTabByConnectionId(connectionId: string): (t: Option<Tab>)
      requires Valid()
      reads this
      ensures t.Some? <==> exists id :: id in tabs && RoutesConnection(tabs[id], connectionId)
      ensures t.Some? ==> RoutesConnection(t.value, connectionId) && !t.value.SerialTab?
      ensures t.Some? ==>
                exists i :: 0 <= i < |entryOrder| && entryOrder[i] in tabs && t.value == tabs[entryOrder[i]] &&
                  forall j :: 0 <= j < i ==> entryOrder[j] in tabs && !RoutesConnection(tabs[entryOrder[j]], connectionId)
    {
      ElementsAll(entryOrder);
      FirstMatch(entryOrder, tabs, (t: Tab) => RoutesConnection(t, connectionId))
    }

    /** `getModbusTabByConnectionId`. */
    function GetModbusTabByConnectionId(connectionId: string): (t: Option<Tab>)
      requires Valid()
      reads this
      ensures t.Some? <==> exists id :: id in tabs && RoutesModbus(tabs[id], connectionId)
      ensures t.Some? ==> RoutesModbus(t.value, connectionId)
      ensures t.Some? ==>
                exists i :: 0 <= i < |entryOrder| && entryOrder[i] in tabs && t.value == tabs[entryOrder[i]] &&
                  forall j :: 0 <= j < i ==> entryOrder[j] in tabs && !RoutesModbus(tabs[entryOrder[j]], connectionId)
    {
      ElementsAll(entryOrder);
      FirstMatch(entryOrder, tabs, (t: Tab) => RoutesModbus(t, connectionId))
    }

    /** `getConnectedPorts`: the loop that collects the ports of connected serial tabs. */
    method GetConnectedPorts() returns (connected: seq<string>)
      requires Valid()
      ensures forall id :: id in entryOrder ==> id in tabs
      ensures connected == ConnectedPorts(entryOrder, tabs)
    {
      ElementsAll(entryOrder);
      connected := [];
      var i := 0;
      while i < |entryOrder|
        invariant 0 <= i <= |entryOrder|
        invariant connected == ConnectedPorts(entryOrder[..i], tabs)
      {
        var tab := tabs[entryOrder[i]];
        assert entryOrder[..i + 1][..i] == entryOrder[..i];
        if tab.SerialTab? && tab.isConnected && tab.selectedPort != "" {
          connected := connected + [tab.selectedPort];
        }
        i := i + 1;
      }
      assert entryOrder[..i] == entryOrder;
    }
  }

  // ---------------------------------------------------------------- counting keys

  /** A list without repeats holding exactly the map's keys is as long as the map. */
  lemma {:induction false} DistinctCount(s: seq<string>, m: map<string, Tab>)
    requires ListsKeys(s, m)
    ensures |s| == |m|
  {
    if |s| == 0 {
      assert m.Keys == {};
    } else {
      ElementsMember(s[1..], s[0]);
      assert Elements(s[1..]) == (m - {s[0]}).Keys;
      DistinctCount(s[1..], m - {s[0]});
      CloseCount(m, s[0]);
    }
  }

  /** Deleting a live key shrinks the map by one. */
  lemma CloseCount(m: map<string, Tab>, k: string)
    requires k in m
    ensures |m - {k}| == |m| - 1
  {
    assert m.Keys == (m - {k}).Keys + {k};
  }

  // ---------------------------------------------------------------- routing properties

  /** A port lookup finds a tab exactly when the port is reported connected. */
  lemma PortLookupAgrees(store: TabStore, portName: string)
    requires store.Valid()
    ensures store.GetTabByPortName(portName).Some? <==> store.IsPortConnected(portName)
    ensures store.GetTabByPortName(portName).Some? ==>
              var t := store.GetTabByPortName(portName).value;
              t.SerialTab? && t.isConnected && t.selectedPort == portName && t.id in store.tabs
  {
    ElementsAll(store.entryOrder);
    IdsMatchAll(store.tabOrder, store.tabs);
  }

  /** While every routing id is its tab's own id, as the factories set them. */
  predicate RoutingIdsAreKeys(tabs: map<string, Tab>) {
    forall id :: id in tabs ==>
      (tabs[id].TcpClientTab? ==> tabs[id].connectionId == id) &&
      (tabs[id].TcpServerTab? ==> tabs[id].serverId == id) &&
      (tabs[id].ModbusTab? ==> tabs[id].connectionId == id)
  }

  /**
   * While routing ids are the factory's, `getTabByConnectionId(c)` is the
   * network tab stored under key `c`, and `null` for serial tabs and unknown keys.
   */
  lemma ConnectionLookupByKey(store: TabStore, c: string)
    requires store.Valid() && RoutingIdsAreKeys(store.tabs)
    ensures store.GetTabByConnectionId(c) ==
              if c in store.tabs && !store.tabs[c].SerialTab? then Some(store.tabs[c]) else None
  {
    FirstMatchSingleKey(store.entryOrder, store.tabs, (t: Tab) => RoutesConnection(t, c), c);
  }

  /** When only the tab under key `c` can match, a scan finds that tab or nothing. */
  lemma FirstMatchSingleKey(order: seq<string>, tabs: map<string, Tab>, matches: Tab -> bool, c: string)
    requires ListsKeys(order, tabs)
    requires forall id :: id in tabs && matches(tabs[id]) ==> id == c
    ensures forall id :: id in order ==> id in tabs
    ensures FirstMatch(order, tabs, matches) == if c in tabs && matches(tabs[c]) then Some(tabs[c]) else None
  {
    ElementsAll(order);
    var r := FirstMatch(order, tabs, matches);
    if r.Some? {
      var i :| 0 <= i < |order| && r.value == tabs[order[i]] &&
               forall j :: 0 <= j < i ==> !matches(tabs[order[j]]);
      assert order[i] == c;
    }
  }

  /** Creating and closing tabs keeps every routing id equal to its key. */
  lemma RoutingIdsPreserved(tabs: map<string, Tab>, connectionType: string, id: string, closed: string)
    requires RoutingIdsAreKeys(tabs)
    ensures RoutingIdsAreKeys(tabs[id := NewTabState(connectionType, id)])
    ensures RoutingIdsAreKeys(tabs - {closed})
  {
  }

  /** The Modbus lookup only ever returns Modbus tabs, and finds the one stored under its own id. */
  lemma ModbusLookupFindsOwnId(store: TabStore, c: string)
    requires store.Valid()
    ensures store.GetModbusTabByConnectionId(c).Some? ==> store.GetModbusTabByConnectionId(c).value.ModbusTab?
    ensures c in store.tabs && store.tabs[c].ModbusTab? && store.tabs[c].connectionId == c ==>
              store.GetModbusTabByConnectionId(c).Some?
  {
    ElementsAll(store.entryOrder);
    if c in store.tabs && store.tabs[c].ModbusTab? && store.tabs[c].connectionId == c {
      var i :| 0 <= i < |store.entryOrder| && store.entryOrder[i] == c;
      assert RoutesModbus(store.tabs[store.entryOrder[i]], c);
    }
  }
}
