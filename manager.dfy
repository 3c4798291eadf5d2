/** The per-language lifecycle of the language-server manager: one entry
    per configured language (status, settings, client instance), a queue
    of files opened before the language's client exists, and the plugin
    signals every new client is given.

    Client instances are numbered in creation order; what the manager asks
    of them is recorded in a log of `Call`s. The pure functions say what
    each operation does to the manager's state; the class `LSPManager`
    performs them in place and is proved to agree. */
module Manager {
  import opened Json
  import opened Protocol

  datatype Status = Stopped | Running

  /** The stored settings of one language server. */
  datatype Config = Config(
    cmd: string,
    args: string,
    host: string,
    port: int,
    external: bool,
    configurations: Value)

  /** `clients[language]`: `{'status', 'config', 'instance'}`. */
  datatype Entry = Entry(status: Status, config: Config, instance: Option<nat>)

  /** A file opened before its language's client existed. */
  datatype QueuedFile = QueuedFile(filename: string, signal: Value)

  /** What the manager does to client instances. */
  datatype Call =
    | ClientCreated(client: nat, language: string, config: Config)
    | PluginTypeRegistered(client: nat, pluginType: string, sig: Listener)
    | ClientStarted(client: nat)
    | ClientStopped(client: nat)
    | FileRegistered(client: nat, filename: string, signal: Value)
    | RequestPerformed(client: nat, request: string, params: Params)
    | ConfigurationsSent(client: nat, configurations: Value)

  /** The process environment read by `start_lsp_client` (skip starting
      under continuous integration) and the port chooser it calls. */
  datatype ManagerEnv = ManagerEnv(ciSkip: bool, selectPort: int -> int)

  /** `order` is the insertion order of the `clients` dict; `plugins` is
      the `lsp_plugins` dict as a list of pairs in insertion order. */
  datatype ManagerState = ManagerState(
    order: seq<string>,
    clients: map<string, Entry>,
    queue: map<string, seq<QueuedFile>>,
    plugins: seq<(string, Listener)>,
    nextClient: nat,
    calls: seq<Call>)

  /** The outcome of an operation: the state, `start_lsp_client`'s return
      value, and whether it raised. */
  datatype Outcome = Outcome(state: ManagerState, started: bool, raised: bool)

  predicate Distinct(xs: seq<string>) {
    forall i, j :: 0 <= i < j < |xs| ==> xs[i] != xs[j]
  }

  predicate DistinctKeys(ps: seq<(string, Listener)>) {
    forall i, j :: 0 <= i < j < |ps| ==> ps[i].0 != ps[j].0
  }

  /** What the code keeps true: the order lists each configured language
      once, every language has a queue and only those, a running language
      has a client instance, and instances are numbered below the counter. */
  ghost predicate ValidState(st: ManagerState) {
    && Distinct(st.order)
    && (forall l :: l in st.clients <==> l in st.order)
    && st.queue.Keys == st.clients.Keys
    && (forall l :: l in st.clients && st.clients[l].status == Running ==> st.clients[l].instance.Some?)
    && (forall l :: l in st.clients && st.clients[l].instance.Some? ==> st.clients[l].instance.value < st.nextClient)
    && DistinctKeys(st.plugins)
  }

  const EMPTY: ManagerState := ManagerState([], map[], map[], [], 0, [])

  /** `clients[language] = entry`: a new key goes to the end of the order,
      an existing one keeps its place. */
  function PutClient(st: ManagerState, language: string, e: Entry): ManagerState {
    st.(order := if language in st.clients then st.order else st.order + [language],
        clients := st.clients[language := e])
  }

  // ---------------------------------------------------------------------
  // Construction

  /** One iteration of the `__init__` loop: the option becomes a stopped
      entry with no instance and an empty queue. */
  function WithOption(st: ManagerState, language: string, config: Config): (r: ManagerState)
    ensures st.queue.Keys == st.clients.Keys ==> r.queue.Keys == r.clients.Keys
    ensures r.clients.Keys == st.clients.Keys + {language}
    ensures r.plugins == st.plugins && r.nextClient == st.nextClient && r.calls == st.calls
  {
    PutClient(st, language, Entry(Stopped, config, None)).(queue := st.queue[language := []])
  }

  /** Adding an option keeps the manager's invariant. */
  lemma WithOptionValid(st: ManagerState, language: string, config: Config)
    requires ValidState(st)
    ensures ValidState(WithOption(st, language, config))
  {
    var r := WithOption(st, language, config);
    if language in st.clients {
      assert r.order == st.order;
    } else {
      assert r.order == st.order + [language];
      assert language !in st.order;
      forall i, j | 0 <= i < j < |r.order|
        ensures r.order[i] != r.order[j]
      {
        if j == |st.order| {
          assert r.order[i] == st.order[i];
        }
      }
    }
    assert Distinct(r.order);
    assert forall l :: l in r.clients <==> l in r.order;
    assert r.queue.Keys == r.clients.Keys;
    forall l | l in r.clients
      ensures r.clients[l].status == Running ==> r.clients[l].instance.Some?
      ensures r.clients[l].instance.Some? ==> r.clients[l].instance.value < r.nextClient
    {
      if l != language {
        assert r.clients[l] == st.clients[l];
      }
    }
    assert r.plugins == st.plugins;
  }

  /** The loop of `__init__`, over the options in order. */
  function AddOptions(st: ManagerState, options: seq<(string, Config)>): (r: ManagerState)
    ensures st.queue.Keys == st.clients.Keys ==> r.queue.Keys == r.clients.Keys
    ensures r.plugins == st.plugins && r.nextClient == st.nextClient && r.calls == st.calls
    decreases |options|
  {
    if options == [] then st
    else AddOptions(WithOption(st, options[0].0, options[0].1), options[1..])
  }

  /** Construction keeps the manager's invariant. */
  lemma {:induction false} AddOptionsValid(st: ManagerState, options: seq<(string, Config)>)
    requires ValidState(st)
    ensures ValidState(AddOptions(st, options))
    decreases |options|
  {
    if options != [] {
      WithOptionValid(st, options[0].0, options[0].1);
      AddOptionsValid(WithOption(st, options[0].0, options[0].1), options[1..]);
    }
  }

  /** What one option does to the entry of `language`. */
  lemma WithOptionEntry(st: ManagerState, option: string, config: Config, language: string)
    requires st.queue.Keys == st.clients.Keys
    ensures var r := WithOption(st, option, config);
      && (language in r.clients <==> language in st.clients || language == option)
      && (language == option ==> r.clients[language] == Entry(Stopped, config, None) && r.queue[language] == [])
      && (language != option && language in st.clients ==>
            r.clients[language] == st.clients[language] && r.queue[language] == st.queue[language])
  {
  }

  /** After construction exactly the configured languages are added. */
  lemma {:induction false} AddOptionsKeys(st: ManagerState, options: seq<(string, Config)>, language: string)
    requires st.queue.Keys == st.clients.Keys
    ensures language in AddOptions(st, options).clients <==>
      language in st.clients || exists i :: 0 <= i < |options| && options[i].0 == language
    decreases |options|
  {
    if options != [] {
      var tail := options[1..];
      var st1 := WithOption(st, options[0].0, options[0].1);
      assert AddOptions(st, options) == AddOptions(st1, tail);
      WithOptionEntry(st, options[0].0, options[0].1, language);
      AddOptionsKeys(st1, tail, language);
      if exists i :: 0 <= i < |options| && options[i].0 == language {
        var i :| 0 <= i < |options| && options[i].0 == language;
        if i > 0 {
          assert tail[i - 1].0 == language;
        }
      }
      if exists j :: 0 <= j < |tail| && tail[j].0 == language {
        var j :| 0 <= j < |tail| && tail[j].0 == language;
        assert options[j + 1].0 == language;
      }
    }
  }

  /** A configured language ends up stopped, without instance and with an
      empty queue. */
  lemma {:induction false} AddOptionsNamed(st: ManagerState, options: seq<(string, Config)>, language: string, i: int)
    requires st.queue.Keys == st.clients.Keys
    requires 0 <= i < |options| && options[i].0 == language
    ensures var r := AddOptions(st, options);
      && language in r.clients && language in r.queue
      && r.clients[language].status == Stopped && r.clients[language].instance.None?
      && r.queue[language] == []
    decreases |options|
  {
    var tail := options[1..];
    var st1 := WithOption(st, options[0].0, options[0].1);
    assert AddOptions(st, options) == AddOptions(st1, tail);
    if i > 0 {
      assert tail[i - 1].0 == language;
      AddOptionsNamed(st1, tail, language, i - 1);
    } else if exists j :: 0 <= j < |tail| && tail[j].0 == language {
      var j :| 0 <= j < |tail| && tail[j].0 == language;
      AddOptionsNamed(st1, tail, language, j);
    } else {
      WithOptionEntry(st, options[0].0, options[0].1, language);
      assert language in st1.clients && st1.queue.Keys == st1.clients.Keys;
      assert forall j :: 0 <= j < |tail| ==> tail[j].0 != language;
      AddOptionsUnnamed(st1, tail, language);
    }
  }

  /** A language no option names keeps its entry and its queue. */
  lemma {:induction false} AddOptionsUnnamed(st: ManagerState, options: seq<(string, Config)>, language: string)
    requires st.queue.Keys == st.clients.Keys
    requires language in st.clients
    requires forall i :: 0 <= i < |options| ==> options[i].0 != language
    ensures var r := AddOptions(st, options);
      && language in r.clients && language in r.queue
      && r.clients[language] == st.clients[language] && r.queue[language] == st.queue[language]
    decreases |options|
  {
    if options != [] {
      var tail := options[1..];
      var st1 := WithOption(st, options[0].0, options[0].1);
      assert AddOptions(st, options) == AddOptions(st1, tail);
      WithOptionEntry(st, options[0].0, options[0].1, language);
      assert forall j :: 0 <= j < |tail| ==> tail[j].0 == options[j + 1].0;
      AddOptionsUnnamed(st1, tail, language);
    }
  }

  /** After construction every configured language is stopped, has no
      instance and an empty queue; a language no option names keeps its
      entry; there is nothing else. */
  lemma AddOptionsEntries(st: ManagerState, options: seq<(string, Config)>, language: string)
    requires st.queue.Keys == st.clients.Keys
    ensures var r := AddOptions(st, options);
      && (language in r.clients <==> language in st.clients || exists i :: 0 <= i < |options| && options[i].0 == language)
      && (forall i :: 0 <= i < |options| && options[i].0 == language ==>
            r.clients[language].status == Stopped && r.clients[language].instance.None?
            && r.queue[language] == [])
      && (language in st.clients && (forall i :: 0 <= i < |options| ==> options[i].0 != language) ==>
            r.clients[language] == st.clients[language] && r.queue[language] == st.queue[language])
  {
    AddOptionsKeys(st, options, language);
    forall i | 0 <= i < |options| && options[i].0 == language {
      AddOptionsNamed(st, options, language, i);
    }
    if language in st.clients && (forall i :: 0 <= i < |options| ==> options[i].0 != language) {
      AddOptionsUnnamed(st, options, language);
    }
  }

  // ---------------------------------------------------------------------
  // Plugins and files

  /** The position of `pluginType` among the keys, or the length when it
      is not one of them. */
  function KeyIndex(ps: seq<(string, Listener)>, pluginType: string): (i: nat)
    ensures i <= |ps|
    ensures i < |ps| ==> ps[i].0 == pluginType
    ensures forall j :: 0 <= j < i ==> ps[j].0 != pluginType
    decreases |ps|
  {
    if ps == [] then 0
    else if ps[0].0 == pluginType then 0
    else 1 + KeyIndex(ps[1..], pluginType)
  }

  /** `lsp_plugins[pluginType] = sig`: replaces the signal of a known type
      in place, appends a new type. */
  function PutPlugin(ps: seq<(string, Listener)>, pluginType: string, sig: Listener): (r: seq<(string, Listener)>)
    ensures (forall i :: 0 <= i < |ps| ==> ps[i].0 != pluginType) ==> r == ps + [(pluginType, sig)]
    ensures (exists i :: 0 <= i < |ps| && ps[i].0 == pluginType) ==> |r| == |ps|
    ensures exists i :: 0 <= i < |r| && r[i] == (pluginType, sig)
    ensures forall i :: 0 <= i < |r| && r[i].0 != pluginType ==> i < |ps| && r[i] == ps[i]
    ensures DistinctKeys(ps) ==> DistinctKeys(r)
  {
    var k := KeyIndex(ps, pluginType);
    var r := if k == |ps| then ps + [(pluginType, sig)] else ps[k := (pluginType, sig)];
    assert r[k] == (pluginType, sig);
    r
  }

  function RegisterPluginTypeSpec(st: ManagerState, pluginType: string, sig: Listener): (r: ManagerState)
    requires ValidState(st)
    ensures ValidState(r)
    ensures r.(plugins := st.plugins) == st
  {
    st.(plugins := PutPlugin(st.plugins, pluginType, sig))
  }

  /** `register_file`: queued while the language has no client instance,
      passed to the instance (even a stopped one) otherwise. */
  function RegisterFileSpec(st: ManagerState, language: string, filename: string, signal: Value): (r: ManagerState)
    requires ValidState(st)
    ensures ValidState(r)
    ensures r.clients == st.clients && r.order == st.order && r.plugins == st.plugins
    ensures st.calls <= r.calls && r.queue.Keys == st.queue.Keys
    ensures forall l :: l in st.queue ==> st.queue[l] <= r.queue[l]
  {
    if language !in st.clients then st
    else match st.clients[language].instance
      case None => st.(queue := st.queue[language := st.queue[language] + [QueuedFile(filename, signal)]])
      case Some(c) => st.(calls := st.calls + [FileRegistered(c, filename, signal)])
  }

  /** Files of a language without an instance are queued in order; an
      unknown language changes nothing. */
  lemma RegisterFileQueues(st: ManagerState, language: string, filename: string, signal: Value)
    requires ValidState(st)
    ensures var r := RegisterFileSpec(st, language, filename, signal);
      && ValidState(r)
      && (language !in st.clients ==> r == st)
      && (language in st.clients && st.clients[language].instance.None? ==>
            r.queue == st.queue[language := st.queue[language] + [QueuedFile(filename, signal)]]
            && r.(queue := st.queue) == st)
      && (language in st.clients && st.clients[language].instance.Some? ==>
            r.calls == st.calls + [FileRegistered(st.clients[language].instance.value, filename, signal)]
            && r.(calls := st.calls) == st)
  {
  }

  // ---------------------------------------------------------------------
  // Starting and closing

  /** One `register_plugin_type` call per plugin type, in insertion order. */
  function PluginCalls(c: nat, ps: seq<(string, Listener)>): (r: seq<Call>)
    ensures |r| == |ps|
    ensures forall i :: 0 <= i < |ps| ==> r[i] == PluginTypeRegistered(c, ps[i].0, ps[i].1)
  {
    seq(|ps|, i requires 0 <= i < |ps| => PluginTypeRegistered(c, ps[i].0, ps[i].1))
  }

  /** The settings a new client is started with: a local server gets the
      port the chooser returns for its configured one. */
  function StartConfig(env: ManagerEnv, config: Config): (r: Config)
    ensures r.(port := config.port) == config
    ensures config.external ==> r == config
  {
    if config.external then config else config.(port := env.selectPort(config.port))
  }

  /** `start_lsp_client`. A stopped language gets a new client instance,
      which is given every plugin signal and started. Files queued for it
      are then handed to the status dict instead of the client, which
      raises an AttributeError and leaves the queue as it was. */
  function StartSpec(env: ManagerEnv, st: ManagerState, language: string): (o: Outcome)
    requires ValidState(st)
    ensures ValidState(o.state)
    ensures o.state.clients.Keys == st.clients.Keys
  {
    if language !in st.clients || env.ciSkip then Outcome(st, false, false)
    else
      var e := st.clients[language];
      if e.status == Running then Outcome(st, true, false)
      else
        var config := StartConfig(env, e.config);
        var c := st.nextClient;
        var st1 := st.(clients := st.clients[language := Entry(Running, config, Some(c))],
                       nextClient := c + 1,
                       calls := st.calls + [ClientCreated(c, language, config)]
                                + PluginCalls(c, st.plugins) + [ClientStarted(c)]);
        if st.queue[language] != [] then Outcome(st1, false, true)
        else Outcome(st1, false, false)
  }

  /** An unknown language, or the continuous-integration switch, leaves
      everything as it was and answers False. */
  lemma StartSkipped(env: ManagerEnv, st: ManagerState, language: string)
    requires ValidState(st) && (language !in st.clients || env.ciSkip)
    ensures StartSpec(env, st, language) == Outcome(st, false, false)
  {
  }

  /** Otherwise the answer is True exactly when the language was already
      running, which changes nothing; a stopped language ends up running
      on a new instance whose creation, plugin signals and start are
      logged in that order, and the call raises exactly when files were
      queued for it (the queue is empty afterwards only when it was
      empty before). */
  lemma StartLanguage(env: ManagerEnv, st: ManagerState, language: string)
    requires ValidState(st) && language in st.clients && !env.ciSkip
    ensures var o := StartSpec(env, st, language);
      var e := st.clients[language];
      && (o.started <==> e.status == Running)
      && (e.status == Running ==> o.state == st && !o.raised)
      && (e.status == Stopped ==>
            && o.state.clients[language] == Entry(Running, StartConfig(env, e.config), Some(st.nextClient))
            && o.state.calls == st.calls + [ClientCreated(st.nextClient, language, StartConfig(env, e.config))]
                 + PluginCalls(st.nextClient, st.plugins) + [ClientStarted(st.nextClient)]
            && (o.raised <==> st.queue[language] != [])
            && o.state.queue == st.queue
            && (!o.raised ==> o.state.queue[language] == [])
            && (forall l :: l in st.clients && l != language ==> o.state.clients[l] == st.clients[l]))
  {
  }

  /** `close_client`: a known language ends up stopped; its instance is
      stopped only if it was running, and is kept. */
  function CloseSpec(st: ManagerState, language: string): (r: ManagerState)
    requires ValidState(st)
    ensures ValidState(r)
  {
    if language !in st.clients then st
    else
      var e := st.clients[language];
      var calls := if e.status == Running then [ClientStopped(e.instance.value)] else [];
      st.(clients := st.clients[language := e.(status := Stopped)], calls := st.calls + calls)
  }

  lemma CloseStops(st: ManagerState, language: string)
    requires ValidState(st)
    ensures var r := CloseSpec(st, language);
      && (language !in st.clients ==> r == st)
      && (language in st.clients ==>
            && r.clients[language] == st.clients[language].(status := Stopped)
            && (st.clients[language].status == Running ==>
                  r.calls == st.calls + [ClientStopped(st.clients[language].instance.value)])
            && (st.clients[language].status == Stopped ==> r.calls == st.calls)
            && r.clients.Keys == st.clients.Keys
            && (forall l :: l in st.clients && l != language ==> r.clients[l] == st.clients[l])
            && r.(clients := st.clients, calls := st.calls) == st)
  {
  }

  /** The loops of `closing_plugin` (nothing active) and
      `update_client_status`: every listed language not in `active` is
      closed, in order. */
  function CloseInactive(st: ManagerState, languages: seq<string>, active: set<string>): (r: ManagerState)
    requires ValidState(st)
    ensures ValidState(r)
    decreases |languages|
  {
    if languages == [] then st
    else
      var st1 := if languages[0] in active then st else CloseSpec(st, languages[0]);
      CloseInactive(st1, languages[1..], active)
  }

  /** The stop call closing `l` makes: one when it is inactive and its
      entry is running on an instance. */
  function StopCall(clients: map<string, Entry>, l: string, active: set<string>): seq<Call> {
    if l !in active && l in clients && clients[l].status == Running && clients[l].instance.Some?
    then [ClientStopped(clients[l].instance.value)] else []
  }

  /** The stop calls that closing the listed inactive languages makes. */
  function StopCalls(clients: map<string, Entry>, languages: seq<string>, active: set<string>): seq<Call>
    decreases |languages|
  {
    if languages == [] then []
    else StopCall(clients, languages[0], active) + StopCalls(clients, languages[1..], active)
  }

  /** Closing stops exactly the listed languages that are not active:
      their entries become stopped and keep settings and instance, and
      every other entry, the order, the queues and the plugins are
      untouched. */
  lemma {:induction false} CloseInactiveEntries(st: ManagerState, languages: seq<string>, active: set<string>)
    requires ValidState(st)
    ensures var r := CloseInactive(st, languages, active);
      && r.(clients := st.clients, calls := st.calls) == st
      && r.clients.Keys == st.clients.Keys
      && (forall l :: l in st.clients && l in languages && l !in active ==>
            r.clients[l] == st.clients[l].(status := Stopped))
      && (forall l :: l in st.clients && (l !in languages || l in active) ==> r.clients[l] == st.clients[l])
    decreases |languages|
  {
    if languages != [] {
      var l := languages[0];
      var st1 := if l in active then st else CloseSpec(st, l);
      CloseStops(st, l);
      CloseInactiveEntries(st1, languages[1..], active);
      assert forall x :: x in languages <==> x == l || x in languages[1..] by {
        assert languages == [l] + languages[1..];
      }
    }
  }

  /** Each listed inactive language that was running has its instance
      stopped once, in list order, and nothing else is logged. */
  lemma {:induction false} CloseInactiveCalls(st: ManagerState, languages: seq<string>, active: set<string>)
    requires ValidState(st) && Distinct(languages)
    ensures CloseInactive(st, languages, active).calls == st.calls + StopCalls(st.clients, languages, active)
    decreases |languages|
  {
    if languages != [] {
      var l, tail := languages[0], languages[1..];
      var st1 := CloseFirst(st, languages, active);
      DistinctTail(languages);
      CloseInactiveCalls(st1, tail, active);
      var head, rest := StopCall(st.clients, l, active), StopCalls(st.clients, tail, active);
      assert CloseInactive(st1, tail, active).calls == (st.calls + head) + rest;
      assert (st.calls + head) + rest == st.calls + (head + rest);
    }
  }

  /** The first turn of the closing loop: the state it leaves, the stop
      call it logs, and the stop calls still due for the rest of the list. */
  lemma CloseFirst(st: ManagerState, languages: seq<string>, active: set<string>) returns (st1: ManagerState)
    requires ValidState(st) && Distinct(languages) && languages != []
    ensures ValidState(st1)
    ensures CloseInactive(st, languages, active) == CloseInactive(st1, languages[1..], active)
    ensures st1.calls == st.calls + StopCall(st.clients, languages[0], active)
    ensures StopCalls(st1.clients, languages[1..], active) == StopCalls(st.clients, languages[1..], active)
    ensures StopCalls(st.clients, languages, active)
      == StopCall(st.clients, languages[0], active) + StopCalls(st.clients, languages[1..], active)
  {
    var l := languages[0];
    st1 := if l in active then st else CloseSpec(st, l);
    CloseIfInactive(st, l, active);
    DistinctTail(languages);
    StopCallsFrame(st.clients, st1.clients, languages[1..], active, l);
  }

  /** One turn of the closing loop logs that language's stop call and
      changes no other entry. */
  lemma CloseIfInactive(st: ManagerState, l: string, active: set<string>)
    requires ValidState(st)
    ensures var st1 := if l in active then st else CloseSpec(st, l);
      && st1.calls == st.calls + StopCall(st.clients, l, active)
      && st1.clients.Keys == st.clients.Keys
      && (forall x :: x in st.clients && x != l ==> st1.clients[x] == st.clients[x])
  {
    CloseStops(st, l);
  }

  /** The tail of a list without repetitions has none either, and does not
      hold the head. */
  lemma DistinctTail(xs: seq<string>)
    requires Distinct(xs) && xs != []
    ensures Distinct(xs[1..]) && xs[0] !in xs[1..]
    ensures forall x :: x in xs <==> x == xs[0] || x in xs[1..]
  {
    assert forall i :: 0 <= i < |xs[1..]| ==> xs[1..][i] == xs[i + 1];
    assert xs == [xs[0]] + xs[1..];
  }

  /** Closing one language does not change the stop calls due for other
      languages. */
  lemma {:induction false} StopCallsFrame(clients: map<string, Entry>, clients1: map<string, Entry>,
                                          languages: seq<string>, active: set<string>, closed: string)
    requires closed !in languages
    requires clients1.Keys == clients.Keys
    requires forall l :: l in clients && l != closed ==> clients1[l] == clients[l]
    ensures StopCalls(clients1, languages, active) == StopCalls(clients, languages, active)
    decreases |languages|
  {
    if languages != [] {
      assert languages[0] != closed;
      StopCallsFrame(clients, clients1, languages[1..], active, closed);
    }
  }

  // ---------------------------------------------------------------------
  // Settings changes

  /** The settings whose change needs a restart of the server: every
      setting except the plugin configurations. */
  predicate NeedsRestart(current: Config, next: Config)
    ensures NeedsRestart(current, next) <==> current.(configurations := next.configurations) != next
  {
    || current.cmd != next.cmd
    || current.args != next.args
    || current.host != next.host
    || current.port != next.port
    || current.external != next.external
  }

  /** `clients[language] = config`, for a known language: the entry is
      replaced by the stopped status and the new settings, without
      instance. */
  function ResetEntry(st: ManagerState, language: string, config: Config): (r: ManagerState)
    requires ValidState(st) && language in st.clients
    ensures ValidState(r)
    ensures r.clients.Keys == st.clients.Keys
  {
    st.(clients := st.clients[language := Entry(Stopped, config, None)])
  }

  /** One option of the `update_server_list` loop. */
  function UpdateOne(env: ManagerEnv, st: ManagerState, language: string, config: Config): (o: Outcome)
    requires ValidState(st)
    ensures ValidState(o.state)
    ensures o.state.clients.Keys == st.clients.Keys + {language}
  {
    if language !in st.clients then
      WithOptionValid(st, language, config);
      Outcome(WithOption(st, language, config), false, false)
    else
      var current := st.clients[language];
      if NeedsRestart(current.config, config) then
        if current.status == Stopped then Outcome(ResetEntry(st, language, config), false, false)
        else RestartSpec(env, st, language, config)
      else if current.config.configurations != config.configurations && current.status == Running then
        var sent := st.(calls := st.calls + [ConfigurationsSent(current.instance.value, config.configurations)]);
        assert sent.clients == st.clients && sent.order == st.order && sent.queue == st.queue;
        assert sent.plugins == st.plugins && sent.nextClient == st.nextClient;
        Outcome(sent, false, false)
      else Outcome(st, false, false)
  }

  /** A running server whose restart settings changed: it is closed, takes
      the new settings and is started again. */
  function RestartSpec(env: ManagerEnv, st: ManagerState, language: string, config: Config): (o: Outcome)
    requires ValidState(st) && language in st.clients
    ensures ValidState(o.state)
    ensures o.state.clients.Keys == st.clients.Keys
  {
    var closed := CloseSpec(st, language);
    assert language in closed.clients;
    var o := StartSpec(env, ResetEntry(closed, language, config), language);
    Outcome(o.state, false, o.raised)
  }

  /** A new language is added stopped, without instance, with an empty
      queue, at the end of the order. */
  lemma UpdateAddsLanguage(env: ManagerEnv, st: ManagerState, language: string, config: Config)
    requires ValidState(st) && language !in st.clients
    ensures var o := UpdateOne(env, st, language, config);
      && !o.raised
      && o.state.clients == st.clients[language := Entry(Stopped, config, None)]
      && o.state.queue == st.queue[language := []]
      && o.state.order == st.order + [language]
      && o.state.calls == st.calls
  {
  }

  /** For a known language the server is restarted exactly when one of
      the restart settings differs and it was running: it is stopped, a new
      instance is created with the new settings and started. A stopped one
      only takes the new settings and forgets its instance. */
  lemma UpdateRestarts(env: ManagerEnv, st: ManagerState, language: string, config: Config)
    requires ValidState(st) && language in st.clients && !env.ciSkip
    ensures var o := UpdateOne(env, st, language, config);
      var e := st.clients[language];
      var c := st.nextClient;
      && (NeedsRestart(e.config, config) && e.status == Running ==>
            && o.state.clients[language] == Entry(Running, StartConfig(env, config), Some(c))
            && o.state.calls == st.calls + [ClientStopped(e.instance.value), ClientCreated(c, language, StartConfig(env, config))]
                 + PluginCalls(c, st.plugins) + [ClientStarted(c)]
            && (o.raised <==> st.queue[language] != []))
      && (NeedsRestart(e.config, config) && e.status == Stopped ==>
            o == Outcome(st.(clients := st.clients[language := Entry(Stopped, config, None)]), false, false))
      && (!NeedsRestart(e.config, config) ==>
            && !o.raised
            && o.state.clients == st.clients
            && o.state.nextClient == st.nextClient)
  {
    var e := st.clients[language];
    if NeedsRestart(e.config, config) && e.status == Running {
      UpdateRestartsRunning(env, st, language, config);
    } else if !NeedsRestart(e.config, config) {
      UpdateSendsConfigurations(env, st, language, config);
    }
  }

  /** The running case of `UpdateRestarts`. */
  lemma UpdateRestartsRunning(env: ManagerEnv, st: ManagerState, language: string, config: Config)
    requires ValidState(st) && language in st.clients && !env.ciSkip
    requires NeedsRestart(st.clients[language].config, config) && st.clients[language].status == Running
    ensures var o := UpdateOne(env, st, language, config);
      var e := st.clients[language];
      var c := st.nextClient;
      && o.state.clients[language] == Entry(Running, StartConfig(env, config), Some(c))
      && o.state.calls == st.calls + [ClientStopped(e.instance.value), ClientCreated(c, language, StartConfig(env, config))]
           + PluginCalls(c, st.plugins) + [ClientStarted(c)]
      && (o.raised <==> st.queue[language] != [])
  {
    var e := st.clients[language];
    var closed := CloseSpec(st, language);
    CloseStops(st, language);
    var reset := ResetEntry(closed, language, config);
    var stopped := ClientStopped(e.instance.value);
    assert reset.clients[language] == Entry(Stopped, config, None);
    assert reset.nextClient == st.nextClient && reset.plugins == st.plugins && reset.queue == st.queue;
    assert reset.calls == st.calls + [stopped];
    assert UpdateOne(env, st, language, config) == RestartSpec(env, st, language, config);
    var o := StartSpec(env, reset, language);
    assert RestartSpec(env, st, language, config) == Outcome(o.state, false, o.raised);
    StartLanguage(env, reset, language);
    var created := ClientCreated(st.nextClient, language, StartConfig(env, config));
    assert st.calls + [stopped] + [created] == st.calls + [stopped, created];
  }

  /** Without a restart, new configurations are sent to a running client
      and nothing else happens; the stored settings stay the old ones. */
  lemma UpdateSendsConfigurations(env: ManagerEnv, st: ManagerState, language: string, config: Config)
    requires ValidState(st) && language in st.clients
    requires !NeedsRestart(st.clients[language].config, config)
    ensures var o := UpdateOne(env, st, language, config);
      var e := st.clients[language];
      && (e.status == Running && e.config.configurations != config.configurations ==>
            o.state == st.(calls := st.calls + [ConfigurationsSent(e.instance.value, config.configurations)]))
      && (e.status == Stopped || e.config.configurations == config.configurations ==> o.state == st)
  {
  }

  /** `update_server_list`: the options in order, up to the first that
      raises. */
  function UpdateServerListSpec(env: ManagerEnv, st: ManagerState, options: seq<(string, Config)>): (o: Outcome)
    requires ValidState(st)
    ensures ValidState(o.state) && !o.started
    decreases |options|
  {
    if options == [] then Outcome(st, false, false)
    else
      var o := UpdateOne(env, st, options[0].0, options[0].1);
      if o.raised then Outcome(o.state, false, true)
      else UpdateServerListSpec(env, o.state, options[1..])
  }

  /** Every option's language is configured afterwards, when nothing
      raised; languages are never removed. */
  lemma {:induction false} UpdateServerListKeeps(env: ManagerEnv, st: ManagerState, options: seq<(string, Config)>)
    requires ValidState(st)
    ensures var o := UpdateServerListSpec(env, st, options);
      && st.clients.Keys <= o.state.clients.Keys
      && (!o.raised ==> forall i :: 0 <= i < |options| ==> options[i].0 in o.state.clients)
    decreases |options|
  {
    if options != [] {
      var o := UpdateFirst(env, st, options);
      if !o.raised {
        var r := UpdateServerListSpec(env, o.state, options[1..]);
        UpdateServerListKeeps(env, o.state, options[1..]);
        forall i | 0 <= i < |options| && !r.raised
          ensures options[i].0 in r.state.clients
        {
          if i > 0 {
            var j := i - 1;
            assert options[1..][j].0 in r.state.clients;
            assert options[i] == options[1..][j];
          } else {
            assert options[0].0 in o.state.clients.Keys;
            assert o.state.clients.Keys <= r.state.clients.Keys;
          }
        }
      }
    }
  }

  /** The first turn of the `update_server_list` loop. */
  lemma UpdateFirst(env: ManagerEnv, st: ManagerState, options: seq<(string, Config)>) returns (o: Outcome)
    requires ValidState(st) && options != []
    ensures ValidState(o.state)
    ensures o.state.clients.Keys == st.clients.Keys + {options[0].0}
    ensures o.raised ==> UpdateServerListSpec(env, st, options).state.clients.Keys == o.state.clients.Keys
    ensures o.raised ==> UpdateServerListSpec(env, st, options).raised
    ensures !o.raised ==> UpdateServerListSpec(env, st, options) == UpdateServerListSpec(env, o.state, options[1..])
  {
    o := UpdateOne(env, st, options[0].0, options[0].1);
  }

  /** `send_request`: forwarded only to a known, running language. */
  function SendRequestSpec(st: ManagerState, language: string, request: string, params: Params): (r: ManagerState)
    requires ValidState(st)
    ensures ValidState(r)
    ensures r.(calls := st.calls) == st
    ensures language in st.clients && st.clients[language].status == Running ==>
      r.calls == st.calls + [RequestPerformed(st.clients[language].instance.value, request, params)]
    ensures !(language in st.clients && st.clients[language].status == Running) ==> r == st
  {
    if language in st.clients && st.clients[language].status == Running then
      st.(calls := st.calls + [RequestPerformed(st.clients[language].instance.value, request, params)])
    else st
  }

  // ---------------------------------------------------------------------
  // The manager object

  class LSPManager {
    const env: ManagerEnv
    var order: seq<string>
    var clients: map<string, Entry>
    var queue: map<string, seq<QueuedFile>>
    var plugins: seq<(string, Listener)>
    var nextClient: nat
    var calls: seq<Call>

    function State(): ManagerState
      reads this
    {
      ManagerState(order, clients, queue, plugins, nextClient, calls)
    }

    ghost predicate Valid()
      reads this
    {
      ValidState(State())
    }

    /** `__init__`, over the configured options in order. */
    constructor (env: ManagerEnv, options: seq<(string, Config)>)
      ensures this.env == env
      ensures State() == AddOptions(EMPTY, options)
      ensures Valid()
    {
      this.env := env;
      order := [];
      clients := map[];
      queue := map[];
      plugins := [];
      nextClient := 0;
      calls := [];
      new;
      var i := 0;
      while i < |options|
        invariant 0 <= i <= |options|
        invariant Valid()
        invariant AddOptions(State(), options[i..]) == AddOptions(EMPTY, options)
      {
        assert options[i..][1..] == options[i + 1..];
        AddOption(options[i].0, options[i].1);
        i := i + 1;
      }
    }

    /** The body of the `__init__` loop. */
    method AddOption(language: string, config: Config)
      requires Valid()
      modifies this`order, this`clients, this`queue
      ensures State() == WithOption(old(State()), language, config)
      ensures Valid()
    {
      if language !in clients {
        order := order + [language];
      }
      clients := clients[language := Entry(Stopped, config, None)];
      queue := queue[language := []];
      WithOptionValid(old(State()), language, config);
    }

    method RegisterPluginType(pluginType: string, sig: Listener)
      requires Valid()
      modifies this`plugins
      ensures State() == RegisterPluginTypeSpec(old(State()), pluginType, sig)
      ensures Valid()
    {
      plugins := PutPlugin(plugins, pluginType, sig);
    }

    method RegisterFile(language: string, filename: string, signal: Value)
      requires Valid()
      modifies this`queue, this`calls
      ensures State() == RegisterFileSpec(old(State()), language, filename, signal)
      ensures Valid()
    {
      if language in clients {
        var instance := clients[language].instance;
        if instance.None? {
          queue := queue[language := queue[language] + [QueuedFile(filename, signal)]];
        } else {
          calls := calls + [FileRegistered(instance.value, filename, signal)];
        }
      }
    }

    /** `start_lsp_client`. */
    method StartLspClient(language: string) returns (started: bool, raised: bool)
      requires Valid()
      modifies this`clients, this`nextClient, this`calls
      ensures var o := StartSpec(env, old(State()), language);
        State() == o.state && started == o.started && raised == o.raised
      ensures Valid()
    {
      ghost var st := State();
      started := false;
      raised := false;
      if language !in clients || env.ciSkip {
        return;
      }
      var entry := clients[language];
      var pending := queue[language];
      started := entry.status == Running;
      if entry.status == Stopped {
        var config := entry.config;
        if !config.external {
          config := config.(port := env.selectPort(config.port));
        }
        var c := nextClient;
        nextClient := nextClient + 1;
        calls := calls + [ClientCreated(c, language, config)];
        var i := 0;
        while i < |plugins|
          invariant 0 <= i <= |plugins|
          invariant clients == old(clients) && nextClient == c + 1
          invariant calls == old(calls) + [ClientCreated(c, language, config)] + PluginCalls(c, plugins[..i])
        {
          calls := calls + [PluginTypeRegistered(c, plugins[i].0, plugins[i].1)];
          i := i + 1;
          assert PluginCalls(c, plugins[..i]) == PluginCalls(c, plugins[..i - 1]) + [PluginTypeRegistered(c, plugins[i - 1].0, plugins[i - 1].1)];
        }
        assert plugins[..i] == plugins;
        calls := calls + [ClientStarted(c)];
        assert language in order;
        assert config == StartConfig(env, entry.config);
        clients := clients[language := Entry(Running, config, Some(c))];
        assert State() == st.(clients := st.clients[language := Entry(Running, config, Some(c))],
                              nextClient := c + 1,
                              calls := st.calls + [ClientCreated(c, language, config)]
                                       + PluginCalls(c, st.plugins) + [ClientStarted(c)]);
        // The loop over the queued files fails on its first entry: the
        // files are handed to the status dict, which has no
        // `register_file`.
        if pending != [] {
          raised := true;
          return;
        }
      }
    }

    method CloseClient(language: string)
      requires Valid()
      modifies this`clients, this`calls
      ensures State() == CloseSpec(old(State()), language)
      ensures Valid()
    {
      if language in clients {
        var entry := clients[language];
        if entry.status == Running {
          calls := calls + [ClientStopped(entry.instance.value)];
        }
        clients := clients[language := entry.(status := Stopped)];
      }
    }

    /** `update_client_status`: closes every client whose language is not
        active. */
    method UpdateClientStatus(active: set<string>)
      requires Valid()
      modifies this`clients, this`calls
      ensures State() == CloseInactive(old(State()), old(order), active)
      ensures Valid()
    {
      var languages := order;
      var i := 0;
      while i < |languages|
        invariant 0 <= i <= |languages|
        invariant Valid()
        invariant CloseInactive(State(), languages[i..], active) == CloseInactive(old(State()), languages, active)
      {
        assert languages[i..][1..] == languages[i + 1..];
        if languages[i] !in active {
          CloseClient(languages[i]);
        }
        i := i + 1;
      }
    }

    /** `closing_plugin`: closes every client. */
    method ClosingPlugin()
      requires Valid()
      modifies this`clients, this`calls
      ensures State() == CloseInactive(old(State()), old(order), {})
      ensures Valid()
    {
      UpdateClientStatus({});
    }

    /** `update_server_list`, over the configured options in order. */
    method UpdateServerList(options: seq<(string, Config)>) returns (raised: bool)
      requires Valid()
      modifies this`order, this`clients, this`queue, this`nextClient, this`calls
      ensures var o := UpdateServerListSpec(env, old(State()), options);
        State() == o.state && raised == o.raised
      ensures Valid()
    {
      var i := 0;
      while i < |options|
        invariant 0 <= i <= |options|
        invariant Valid()
        invariant UpdateServerListSpec(env, State(), options[i..]) == UpdateServerListSpec(env, old(State()), options)
      {
        assert options[i..][1..] == options[i + 1..];
        raised := UpdateLanguage(options[i].0, options[i].1);
        if raised {
          return;
        }
        i := i + 1;
      }
      raised := false;
    }

    /** The body of the `update_server_list` loop for one language. */
    method UpdateLanguage(language: string, config: Config) returns (raised: bool)
      requires Valid()
      modifies this`order, this`clients, this`queue, this`nextClient, this`calls
      ensures var o := UpdateOne(env, old(State()), language, config);
        State() == o.state && raised == o.raised
      ensures Valid()
    {
      var reset := Entry(Stopped, config, None);
      raised := false;
      if language !in clients {
        AddOption(language, config);
        return;
      }
      var current := clients[language];
      if NeedsRestart(current.config, config) {
        if current.status == Stopped {
          clients := clients[language := reset];
        } else {
          CloseClient(language);
          ghost var closed := State();
          clients := clients[language := reset];
          assert State() == ResetEntry(closed, language, config);
          var started;
          started, raised := StartLspClient(language);
        }
      } else if current.config.configurations != config.configurations && current.status == Running {
        calls := calls + [ConfigurationsSent(current.instance.value, config.configurations)];
      }
    }

    method SendRequest(language: string, request: string, params: Params)
      requires Valid()
      modifies this`calls
      ensures State() == SendRequestSpec(old(State()), language, request, params)
      ensures Valid()
    {
      if language in clients && clients[language].status == Running {
        calls := calls + [RequestPerformed(clients[language].instance.value, request, params)];
      }
    }
  }
}
