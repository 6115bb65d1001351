/** The registry of browsers and CLIs paired with an SSH session.

    `late-ssh/src/paired_clients.rs` keeps, per session token, the clients connected over
    websockets; `late-ssh/src/api.rs` drives it.  Each client is told which audio source to play
    and whether a browser may play the Icecast stream itself.  One websocket event with its
    broadcast is one step. */
module PairedClients {
  import opened Wrappers
  import opened FiniteSets

  type Token = int
  type User = int
  type Id = nat

  datatype Kind = Browser | Cli | UnknownKind
  datatype SshMode = Native | OpenSsh | Old | Webview | UnknownMode
  datatype Platform = Android | Linux | Macos | Windows | UnknownPlatform
  datatype Source = Icecast | Youtube | Radio

  datatype ClientState = ClientState(kind: Kind, mode: SshMode, platform: Platform, icecastOutput: bool)

  /** ClientAudioState::default: what a client is taken for until it reports. */
  const Unreported: ClientState := ClientState(UnknownKind, UnknownMode, UnknownPlatform, true)

  /** The SetPlaybackSource message. */
  datatype Message = Message(source: Source, webIcecast: bool, embeddedWebview: bool)

  /** One registered client; `sent` is everything put on its channel, oldest first. */
  datatype Entry = Entry(
    id: Id,
    state: ClientState,
    usageRecorded: bool,
    user: User,
    source: Source,
    sent: seq<Message>)

  datatype Label = Label(mode: SshMode, platform: Platform)

  /** The registry and the metrics it reports: the active gauge per label, and the
      registrations whose usage was counted. */
  datatype Registry = Registry(clients: map<Token, seq<Entry>>, lastId: Id, gauges: map<Label, int>, usage: seq<Id>)

  // --------------------------------------------------------------- derived flags

  predicate ClaimsIcecast(e: Entry) { e.state.kind == Cli && e.state.icecastOutput }

  predicate IsRealBrowser(e: Entry) { e.state.kind == Browser && e.state.mode != Webview }

  predicate WebIcecast(entries: seq<Entry>) {
    forall i :: 0 <= i < |entries| ==> !ClaimsIcecast(entries[i])
  }

  predicate EmbeddedWebview(entries: seq<Entry>) {
    forall i :: 0 <= i < |entries| ==> !IsRealBrowser(entries[i])
  }

  /** cli_usage_labels: a CLI that named its mode and platform. */
  function UsageLabel(s: ClientState): Option<Label> {
    if s.kind != Cli || s.mode.Webview? || s.mode.UnknownMode? || s.platform.UnknownPlatform? then None
    else Some(Label(s.mode, s.platform))
  }

  function EntriesOf(clients: map<Token, seq<Entry>>, token: Token): seq<Entry> {
    if token in clients then clients[token] else []
  }

  // --------------------------------------------------------------- operations

  function Told(e: Entry, webIcecast: bool, embeddedWebview: bool): Entry {
    e.(sent := e.sent + [Message(e.source, webIcecast, embeddedWebview)])
  }

  /** broadcast_playback_source_for_token, on the entries of the token. */
  function ToldAll(entries: seq<Entry>): seq<Entry> {
    seq(|entries|, i requires 0 <= i < |entries| =>
      Told(entries[i], WebIcecast(entries), EmbeddedWebview(entries)))
  }

  function Broadcast(r: Registry, token: Token): Registry {
    if token in r.clients then r.(clients := r.clients[token := ToldAll(r.clients[token])]) else r
  }

  /** register, and the initial playback message. */
  function Connected(r: Registry, token: Token, user: User, source: Source): Registry {
    var entries := EntriesOf(r.clients, token) + [Entry(r.lastId + 1, Unreported, false, user, source, [])];
    var last := Told(entries[|entries| - 1], WebIcecast(entries), EmbeddedWebview(entries));
    r.(lastId := r.lastId + 1, clients := r.clients[token := entries[|entries| - 1 := last]])
  }

  /** The place of a registration among the entries, or their number. */
  function Find(entries: seq<Entry>, id: Id): (k: nat)
    ensures k <= |entries|
    ensures k < |entries| ==> entries[k].id == id
    ensures forall i :: 0 <= i < k ==> entries[i].id != id
  {
    if entries == [] || entries[0].id == id then 0 else 1 + Find(entries[1..], id)
  }

  function Bumped(gauges: map<Label, int>, name: Option<Label>, delta: int): map<Label, int> {
    if name.None? then gauges
    else gauges[name.value := (if name.value in gauges then gauges[name.value] else 0) + delta]
  }

  /** update_state_and_enforce_mute_policy on a registered entry. */
  function Updated(r: Registry, token: Token, k: nat, state: ClientState): Registry
    requires token in r.clients && k < |r.clients[token]|
  {
    var e := r.clients[token][k];
    var before, after := UsageLabel(e.state), UsageLabel(state);
    var fires := !e.usageRecorded && after.Some?;
    r.(clients := r.clients[token :=
         r.clients[token][k := e.(state := state, usageRecorded := e.usageRecorded || fires)]],
       gauges := if before == after then r.gauges else Bumped(Bumped(r.gauges, before, -1), after, 1),
       usage := if fires then r.usage + [e.id] else r.usage)
  }

  /** handle_socket broadcasts when the client became or stopped being a CLI, or a claimant. */
  predicate MustBroadcast(before: Entry, after: Entry) {
    (before.state.kind == Cli) != (after.state.kind == Cli) || ClaimsIcecast(before) != ClaimsIcecast(after)
  }

  /** A ClientState report and what follows from it. */
  function Reported(r: Registry, token: Token, id: Id, state: ClientState): Registry {
    var entries := EntriesOf(r.clients, token);
    var k := Find(entries, id);
    if k == |entries| then r
    else
      var r' := Updated(r, token, k, state);
      if MustBroadcast(entries[k], r'.clients[token][k]) then Broadcast(r', token) else r'
  }

  /** unregister_if_match. */
  function Unregistered(r: Registry, token: Token, id: Id): Registry {
    var entries := EntriesOf(r.clients, token);
    var k := Find(entries, id);
    if k == |entries| then r
    else
      var rest := entries[..k] + entries[k + 1..];
      r.(clients := if rest == [] then r.clients - {token} else r.clients[token := rest],
         gauges := Bumped(r.gauges, UsageLabel(entries[k].state), -1))
  }

  /** release_pair_registration. */
  function Released(r: Registry, token: Token, id: Id): Registry {
    Broadcast(Unregistered(r, token, id), token)
  }

  /** set_audio_source (`Some`) and update_stream_choice (`None`), on the entries of one token. */
  function Resourced(entries: seq<Entry>, user: User, source: Option<Source>): seq<Entry> {
    seq(|entries|, i requires 0 <= i < |entries| =>
      if entries[i].user != user then entries[i]
      else Told(entries[i].(source := if source.Some? then source.value else entries[i].source),
                WebIcecast(entries), EmbeddedWebview(entries)))
  }

  function SourceSet(r: Registry, user: User, source: Option<Source>): Registry {
    r.(clients := map token | token in r.clients :: Resourced(r.clients[token], user, source))
  }

  datatype Event =
    | Connect(token: Token, user: User, source: Source)
    | Report(token: Token, id: Id, state: ClientState)
    | Disconnect(token: Token, id: Id)
    | ChooseSource(user: User, source: Source)
    | ChooseStream(user: User)

  function Apply(r: Registry, event: Event): Registry {
    match event
    case Connect(token, user, source) => Connected(r, token, user, source)
    case Report(token, id, state) => Reported(r, token, id, state)
    case Disconnect(token, id) => Released(r, token, id)
    case ChooseSource(user, source) => SourceSet(r, user, Some(source))
    case ChooseStream(user) => SourceSet(r, user, None)
  }

  function Run(r: Registry, events: seq<Event>): Registry
    decreases |events|
  {
    if events == [] then r else Run(Apply(r, events[0]), events[1..])
  }

  const Start: Registry := Registry(map[], 0, map[], [])

  // --------------------------------------------------------------- identities

  /** Registrations are numbered uniquely over all tokens, and no token has an empty list. */
  ghost predicate IdInv(r: Registry) {
    && (forall t :: t in r.clients ==> r.clients[t] != [])
    && (forall t, i :: At(r.clients, t, i) ==> r.clients[t][i].id <= r.lastId)
    && (forall t, i, u, j :: At(r.clients, t, i) && At(r.clients, u, j) && r.clients[t][i].id == r.clients[u][j].id ==>
          t == u && i == j)
  }

  predicate At(clients: map<Token, seq<Entry>>, t: Token, i: int) { t in clients && 0 <= i < |clients[t]| }

  /** The entries of a token were last told their current source and the current Icecast allowance. */
  predicate Informed(entries: seq<Entry>) {
    forall i :: 0 <= i < |entries| ==>
      entries[i].sent != [] &&
      var last := entries[i].sent[|entries[i].sent| - 1];
      last.source == entries[i].source && last.webIcecast == WebIcecast(entries)
  }

  ghost predicate InformedInv(r: Registry) {
    forall t :: t in r.clients ==> Informed(r.clients[t])
  }

  lemma ReportInforms(r: Registry, token: Token, id: Id, state: ClientState)
    requires InformedInv(r)
    ensures InformedInv(Reported(r, token, id, state))
  {
    var entries := EntriesOf(r.clients, token);
    var k := Find(entries, id);
    if k < |entries| {
      var entries' := Updated(r, token, k, state).clients[token];
      forall i | 0 <= i < |entries| && i != k ensures entries'[i] == entries[i] {
      }
      if MustBroadcast(entries[k], entries'[k]) {
        ToldAllInforms(entries');
      } else {
        assert forall i :: 0 <= i < |entries| ==> ClaimsIcecast(entries'[i]) == ClaimsIcecast(entries[i]);
        assert WebIcecast(entries') == WebIcecast(entries);
      }
    }
  }

  lemma ToldAllInforms(entries: seq<Entry>)
    ensures Informed(ToldAll(entries))
  {
    var told := ToldAll(entries);
    assert forall i :: 0 <= i < |entries| ==> ClaimsIcecast(told[i]) == ClaimsIcecast(entries[i]);
    assert WebIcecast(told) == WebIcecast(entries);
  }

  lemma ConnectInforms(r: Registry, token: Token, user: User, source: Source)
    requires InformedInv(r)
    ensures InformedInv(Connected(r, token, user, source))
  {
    var entries := EntriesOf(r.clients, token);
    var added := entries + [Entry(r.lastId + 1, Unreported, false, user, source, [])];
    var entries' := Connected(r, token, user, source).clients[token];
    AddingKeepsAllowance(entries, added);
    AddingKeepsAllowance(entries, entries');
    AddedIsInformed(entries, entries', added[|entries|]);
  }

  lemma AddedIsInformed(entries: seq<Entry>, more: seq<Entry>, e: Entry)
    requires Informed(entries) && more == entries + [Told(e, WebIcecast(entries), EmbeddedWebview(entries + [e]))]
    requires WebIcecast(more) == WebIcecast(entries)
    ensures Informed(more)
  {
  }

  /** A client that claims nothing does not change what the others may do. */
  lemma AddingKeepsAllowance(entries: seq<Entry>, more: seq<Entry>)
    requires |more| == |entries| + 1 && more[..|entries|] == entries && !ClaimsIcecast(more[|entries|])
    ensures WebIcecast(more) == WebIcecast(entries)
    ensures forall i :: 0 <= i < |entries| ==> more[i] == entries[i]
  {
    assert forall i :: 0 <= i < |entries| ==> more[i] == more[..|entries|][i] == entries[i];
  }

  lemma ReleaseInforms(r: Registry, token: Token, id: Id)
    requires InformedInv(r)
    ensures InformedInv(Released(r, token, id))
  {
    var r' := Unregistered(r, token, id);
    if token in r'.clients {
      ToldAllInforms(r'.clients[token]);
    }
  }

  lemma SourceInforms(r: Registry, user: User, source: Option<Source>)
    requires InformedInv(r)
    ensures InformedInv(SourceSet(r, user, source))
  {
    forall t | t in r.clients ensures Informed(Resourced(r.clients[t], user, source)) {
      ResourcedInforms(r.clients[t], user, source);
    }
  }

  lemma ResourcedInforms(entries: seq<Entry>, user: User, source: Option<Source>)
    requires Informed(entries)
    ensures Informed(Resourced(entries, user, source))
  {
    var entries' := Resourced(entries, user, source);
    assert forall i :: 0 <= i < |entries| ==> ClaimsIcecast(entries'[i]) == ClaimsIcecast(entries[i]);
    assert WebIcecast(entries') == WebIcecast(entries);
  }

  lemma EventInforms(r: Registry, event: Event)
    requires InformedInv(r)
    ensures InformedInv(Apply(r, event))
  {
    match event
    case Connect(token, user, source) => ConnectInforms(r, token, user, source);
    case Report(token, id, state) => ReportInforms(r, token, id, state);
    case Disconnect(token, id) => ReleaseInforms(r, token, id);
    case ChooseSource(user, source) => SourceInforms(r, user, Some(source));
    case ChooseStream(user) => SourceInforms(r, user, None);
  }

  // --------------------------------------------------------------- gauges and usage

  ghost function LabelledIn(entries: seq<Entry>, name: Label): set<Id> {
    set i | 0 <= i < |entries| && UsageLabel(entries[i].state) == Some(name) :: entries[i].id
  }

  /** The registered clients with a label, over all tokens. */
  ghost function Labelled(clients: map<Token, seq<Entry>>, name: Label): set<Id> {
    set t, i | t in clients && 0 <= i < |clients[t]| && UsageLabel(clients[t][i].state) == Some(name) :: clients[t][i].id
  }

  function Gauge(gauges: map<Label, int>, name: Label): int { if name in gauges then gauges[name] else 0 }

  /** Each gauge is the number of registered clients with its label. */
  ghost predicate GaugeInv(r: Registry) {
    forall name :: Gauge(r.gauges, name) == |Labelled(r.clients, name)|
  }

  /** Usage was counted at most once per registration, and the entry remembers it. */
  ghost predicate UsageInv(r: Registry) {
    && (forall i, j :: 0 <= i < j < |r.usage| ==> r.usage[i] != r.usage[j])
    && (forall i :: 0 <= i < |r.usage| ==> r.usage[i] <= r.lastId)
    && (forall t, i :: At(r.clients, t, i) ==> (r.clients[t][i].usageRecorded <==> r.clients[t][i].id in r.usage))
  }

  ghost predicate Inv(r: Registry) { IdInv(r) && GaugeInv(r) && UsageInv(r) && InformedInv(r) }

  lemma LabelledSplit(clients: map<Token, seq<Entry>>, token: Token, entries: seq<Entry>, name: Label)
    ensures Labelled(clients[token := entries], name) == Labelled(clients - {token}, name) + LabelledIn(entries, name)
  {
    var after := clients[token := entries];
    forall id | id in Labelled(after, name) ensures id in Labelled(clients - {token}, name) + LabelledIn(entries, name) {
      var t, i :| t in after && 0 <= i < |after[t]| && UsageLabel(after[t][i].state) == Some(name) && id == after[t][i].id;
      if t != token {
        assert t in clients - {token} && (clients - {token})[t] == after[t];
      }
    }
    forall id | id in LabelledIn(entries, name) ensures id in Labelled(after, name) {
      var i :| 0 <= i < |entries| && UsageLabel(entries[i].state) == Some(name) && id == entries[i].id;
      assert after[token][i] == entries[i];
    }
    forall id | id in Labelled(clients - {token}, name) ensures id in Labelled(after, name) {
      var rest: map<Token, seq<Entry>> := clients - {token};
      var t, i :| t in rest && 0 <= i < |rest[t]| && UsageLabel(rest[t][i].state) == Some(name) && id == rest[t][i].id;
      assert after[t] == rest[t];
    }
  }

  /** Clients of other tokens carry other ids. */
  lemma OtherTokens(r: Registry, token: Token, id: Id, name: Label)
    requires IdInv(r) && (id > r.lastId || exists i :: At(r.clients, token, i) && r.clients[token][i].id == id)
    ensures id !in Labelled(r.clients - {token}, name)
  {
    if id in Labelled(r.clients - {token}, name) {
      var rest: map<Token, seq<Entry>> := r.clients - {token};
      var t, j :| t in rest && 0 <= j < |rest[t]| && id == rest[t][j].id;
      assert At(r.clients, t, j);
    }
  }

  /** What one entry's change does to the labelled clients. */
  lemma LabelledUpdate(entries: seq<Entry>, k: nat, e: Entry, name: Label)
    requires k < |entries| && e.id == entries[k].id
    requires forall i, j :: 0 <= i < j < |entries| ==> entries[i].id != entries[j].id
    ensures LabelledIn(entries[k := e], name) ==
            LabelledIn(entries, name) - {e.id} + (if UsageLabel(e.state) == Some(name) then {e.id} else {})
    ensures e.id in LabelledIn(entries, name) <==> UsageLabel(entries[k].state) == Some(name)
  {
    var after := entries[k := e];
    forall id | id in LabelledIn(entries, name) && id != e.id ensures id in LabelledIn(after, name) {
      var i :| 0 <= i < |entries| && UsageLabel(entries[i].state) == Some(name) && id == entries[i].id;
      assert after[i] == entries[i];
    }
    if UsageLabel(e.state) == Some(name) {
      assert after[k] == e;
    }
  }

  lemma LabelledAppend(entries: seq<Entry>, e: Entry, name: Label)
    requires UsageLabel(e.state) == None
    ensures LabelledIn(entries + [e], name) == LabelledIn(entries, name)
  {
    var after := entries + [e];
    assert forall i :: 0 <= i < |entries| ==> after[i] == entries[i];
  }

  lemma LabelledRemove(entries: seq<Entry>, k: nat, name: Label)
    requires k < |entries|
    requires forall i, j :: 0 <= i < j < |entries| ==> entries[i].id != entries[j].id
    ensures LabelledIn(entries[..k] + entries[k + 1..], name) == LabelledIn(entries, name) - {entries[k].id}
    ensures entries[k].id in LabelledIn(entries, name) <==> UsageLabel(entries[k].state) == Some(name)
  {
    var after := entries[..k] + entries[k + 1..];
    assert forall i :: 0 <= i < |after| ==> after[i] == entries[if i < k then i else i + 1];
    forall id | id in LabelledIn(entries, name) && id != entries[k].id ensures id in LabelledIn(after, name) {
      var i :| 0 <= i < |entries| && UsageLabel(entries[i].state) == Some(name) && id == entries[i].id;
      assert after[if i < k then i else i - 1] == entries[i];
    }
  }

  /** The same clients in the same states, whatever they were told. */
  predicate SameClients(a: seq<Entry>, b: seq<Entry>) {
    && |a| == |b|
    && forall i :: 0 <= i < |a| ==> a[i].id == b[i].id && a[i].state == b[i].state && a[i].usageRecorded == b[i].usageRecorded
  }

  /** Sending messages and changing sources touches neither identities nor metrics. */
  lemma TellingKeeps(r: Registry, r': Registry)
    requires IdInv(r) && GaugeInv(r) && UsageInv(r)
    requires r'.clients.Keys == r.clients.Keys && r'.lastId == r.lastId && r'.gauges == r.gauges && r'.usage == r.usage
    requires forall t :: t in r.clients ==> SameClients(r.clients[t], r'.clients[t])
    ensures IdInv(r') && GaugeInv(r') && UsageInv(r')
  {
    forall t, i ensures At(r'.clients, t, i) <==> At(r.clients, t, i) {
    }
    forall name ensures Labelled(r'.clients, name) == Labelled(r.clients, name) {
      forall id | id in Labelled(r.clients, name) ensures id in Labelled(r'.clients, name) {
        var t, i :| t in r.clients && 0 <= i < |r.clients[t]| && UsageLabel(r.clients[t][i].state) == Some(name) &&
                    id == r.clients[t][i].id;
        assert r'.clients[t][i].id == id;
      }
      forall id | id in Labelled(r'.clients, name) ensures id in Labelled(r.clients, name) {
        var t, i :| t in r'.clients && 0 <= i < |r'.clients[t]| && UsageLabel(r'.clients[t][i].state) == Some(name) &&
                    id == r'.clients[t][i].id;
        assert r.clients[t][i].id == id;
      }
    }
  }

  lemma BroadcastKeeps(r: Registry, token: Token)
    requires IdInv(r) && GaugeInv(r) && UsageInv(r)
    ensures var r' := Broadcast(r, token); IdInv(r') && GaugeInv(r') && UsageInv(r')
  {
    TellingKeeps(r, Broadcast(r, token));
  }

  lemma UpdatedKeeps(r: Registry, token: Token, k: nat, state: ClientState)
    requires IdInv(r) && GaugeInv(r) && UsageInv(r) && token in r.clients && k < |r.clients[token]|
    ensures var r' := Updated(r, token, k, state); IdInv(r') && GaugeInv(r') && UsageInv(r')
  {
    UpdatedGauges(r, token, k, state);
    UpdatedUsage(r, token, k, state);
  }

  lemma UpdatedLabelled(r: Registry, token: Token, k: nat, state: ClientState, name: Label)
    requires IdInv(r) && token in r.clients && k < |r.clients[token]|
    ensures var e := r.clients[token][k];
            && Labelled(Updated(r, token, k, state).clients, name) ==
               Labelled(r.clients, name) - {e.id} + (if UsageLabel(state) == Some(name) then {e.id} else {})
            && (e.id in Labelled(r.clients, name) <==> UsageLabel(e.state) == Some(name))
  {
    var entries := r.clients[token];
    var entries' := Updated(r, token, k, state).clients[token];
    assert r.clients == r.clients[token := entries];
    assert At(r.clients, token, k);
    LabelledSplit(r.clients, token, entries, name);
    LabelledSplit(r.clients, token, entries', name);
    OtherTokens(r, token, entries[k].id, name);
    DistinctIn(r, token);
    LabelledUpdate(entries, k, entries'[k], name);
  }

  function Moved(gauges: map<Label, int>, before: Option<Label>, after: Option<Label>): map<Label, int> {
    if before == after then gauges else Bumped(Bumped(gauges, before, -1), after, 1)
  }

  lemma MovedGauge(gauges: map<Label, int>, before: Option<Label>, after: Option<Label>, name: Label)
    ensures Gauge(Moved(gauges, before, after), name) ==
            Gauge(gauges, name) - (if before == Some(name) then 1 else 0) + (if after == Some(name) then 1 else 0)
  {
  }

  lemma MovedSize(ids: set<Id>, id: Id, labelled: bool)
    ensures |ids - {id} + (if labelled then {id} else {})| ==
            |ids| - (if id in ids then 1 else 0) + (if labelled then 1 else 0)
  {
    if labelled {
      assert |ids - {id} + {id}| == |ids - {id}| + 1;
    } else {
      assert ids - {id} + {} == ids - {id};
    }
  }

  /** The gauge of a label moves with the client that gains or loses it. */
  lemma GaugeFollows(r: Registry, r': Registry, id: Id, before: Option<Label>, after: Option<Label>, name: Label)
    requires r'.gauges == Moved(r.gauges, before, after)
    requires Labelled(r'.clients, name) == Labelled(r.clients, name) - {id} + (if after == Some(name) then {id} else {})
    requires id in Labelled(r.clients, name) <==> before == Some(name)
    requires Gauge(r.gauges, name) == |Labelled(r.clients, name)|
    ensures Gauge(r'.gauges, name) == |Labelled(r'.clients, name)|
  {
    MovedGauge(r.gauges, before, after, name);
    MovedSize(Labelled(r.clients, name), id, after == Some(name));
  }

  lemma UpdatedMoves(r: Registry, token: Token, k: nat, state: ClientState)
    requires token in r.clients && k < |r.clients[token]|
    ensures Updated(r, token, k, state).gauges == Moved(r.gauges, UsageLabel(r.clients[token][k].state), UsageLabel(state))
  {
  }

  lemma UpdatedGauges(r: Registry, token: Token, k: nat, state: ClientState)
    requires IdInv(r) && GaugeInv(r) && token in r.clients && k < |r.clients[token]|
    ensures GaugeInv(Updated(r, token, k, state))
  {
    var r', e := Updated(r, token, k, state), r.clients[token][k];
    UpdatedMoves(r, token, k, state);
    forall name ensures Gauge(r'.gauges, name) == |Labelled(r'.clients, name)| {
      UpdatedLabelled(r, token, k, state, name);
      GaugeFollows(r, r', e.id, UsageLabel(e.state), UsageLabel(state), name);
    }
  }

  lemma DistinctIn(r: Registry, token: Token)
    requires IdInv(r) && token in r.clients
    ensures var entries := r.clients[token];
            forall i, j :: 0 <= i < j < |entries| ==> entries[i].id != entries[j].id
  {
    var entries := r.clients[token];
    forall i, j | 0 <= i < j < |entries| ensures entries[i].id != entries[j].id {
      assert At(r.clients, token, i) && At(r.clients, token, j);
    }
  }

  lemma UpdatedUsage(r: Registry, token: Token, k: nat, state: ClientState)
    requires IdInv(r) && UsageInv(r) && token in r.clients && k < |r.clients[token]|
    ensures UsageInv(Updated(r, token, k, state))
  {
    var r' := Updated(r, token, k, state);
    var e := r.clients[token][k];
    assert At(r.clients, token, k);
    forall t, i | At(r'.clients, t, i)
      ensures r'.clients[t][i].usageRecorded <==> r'.clients[t][i].id in r'.usage
    {
      assert At(r.clients, t, i) && r'.clients[t][i].id == r.clients[t][i].id;
      assert r'.usage == r.usage || r'.usage == r.usage + [e.id];
    }
  }

  lemma ConnectedKeeps(r: Registry, token: Token, user: User, source: Source)
    requires IdInv(r) && GaugeInv(r) && UsageInv(r)
    ensures var r' := Connected(r, token, user, source); IdInv(r') && GaugeInv(r') && UsageInv(r')
  {
    var r' := Connected(r, token, user, source);
    var entries := EntriesOf(r.clients, token);
    var e := r'.clients[token][|entries|];
    assert r'.clients[token] == entries + [e];
    forall t, i | At(r'.clients, t, i)
      ensures (t == token && i == |entries|) || (At(r.clients, t, i) && r'.clients[t][i] == r.clients[t][i])
    {
    }
    assert r.lastId + 1 !in r.usage;
    ConnectedLabels(r.clients, token, e);
  }

  /** A new client that has not reported carries no label. */
  lemma ConnectedLabels(clients: map<Token, seq<Entry>>, token: Token, e: Entry)
    requires UsageLabel(e.state).None?
    ensures var more := EntriesOf(clients, token) + [e];
            forall name :: Labelled(clients[token := more], name) == Labelled(clients, name)
  {
    var entries := EntriesOf(clients, token);
    forall name ensures Labelled(clients[token := entries + [e]], name) == Labelled(clients, name) {
      LabelledSplit(clients, token, entries + [e], name);
      LabelledAppend(entries, e, name);
      if token in clients {
        assert clients == clients[token := entries];
        LabelledSplit(clients, token, entries, name);
      } else {
        assert clients - {token} == clients;
        assert LabelledIn(entries, name) == {};
      }
    }
  }

  lemma UnregisteredKeeps(r: Registry, token: Token, id: Id)
    requires IdInv(r) && GaugeInv(r) && UsageInv(r)
    ensures var r' := Unregistered(r, token, id); IdInv(r') && GaugeInv(r') && UsageInv(r')
  {
    var entries := EntriesOf(r.clients, token);
    var k := Find(entries, id);
    if k < |entries| {
      var r' := Unregistered(r, token, id);
      var rest := entries[..k] + entries[k + 1..];
      UnregisteredIds(r, token, k, rest, r');
      UnregisteredGauges(r, token, k, rest, r');
    }
  }

  lemma UnregisteredIds(r: Registry, token: Token, k: nat, rest: seq<Entry>, r': Registry)
    requires IdInv(r) && UsageInv(r) && token in r.clients && k < |r.clients[token]|
    requires rest == r.clients[token][..k] + r.clients[token][k + 1..]
    requires r'.clients == if rest == [] then r.clients - {token} else r.clients[token := rest]
    requires r'.lastId == r.lastId && r'.usage == r.usage
    ensures IdInv(r') && UsageInv(r')
  {
    forall t, i | At(r'.clients, t, i)
      ensures var j := if t == token && i >= k then i + 1 else i;
              At(r.clients, t, j) && r'.clients[t][i] == r.clients[t][j]
    {
    }
  }

  lemma UnregisteredLabelled(r: Registry, token: Token, k: nat, name: Label)
    requires IdInv(r) && token in r.clients && k < |r.clients[token]|
    ensures var entries := r.clients[token];
            var rest := entries[..k] + entries[k + 1..];
            && Labelled(if rest == [] then r.clients - {token} else r.clients[token := rest], name) ==
               Labelled(r.clients, name) - {entries[k].id}
            && (entries[k].id in Labelled(r.clients, name) <==> UsageLabel(entries[k].state) == Some(name))
  {
    var entries := r.clients[token];
    var rest := entries[..k] + entries[k + 1..];
    assert r.clients == r.clients[token := entries];
    assert At(r.clients, token, k);
    LabelledSplit(r.clients, token, entries, name);
    LabelledSplit(r.clients, token, rest, name);
    OtherTokens(r, token, entries[k].id, name);
    DistinctIn(r, token);
    LabelledRemove(entries, k, name);
  }

  lemma UnregisteredGauges(r: Registry, token: Token, k: nat, rest: seq<Entry>, r': Registry)
    requires IdInv(r) && GaugeInv(r) && token in r.clients && k < |r.clients[token]|
    requires rest == r.clients[token][..k] + r.clients[token][k + 1..]
    requires r'.clients == if rest == [] then r.clients - {token} else r.clients[token := rest]
    requires r'.gauges == Bumped(r.gauges, UsageLabel(r.clients[token][k].state), -1)
    ensures GaugeInv(r')
  {
    forall name ensures Gauge(r'.gauges, name) == |Labelled(r'.clients, name)| {
      UnregisteredLabelled(r, token, k, name);
      assert Gauge(r.gauges, name) == |Labelled(r.clients, name)|;
    }
  }

  lemma EventKeepsInv(r: Registry, event: Event)
    requires Inv(r)
    ensures Inv(Apply(r, event))
  {
    EventInforms(r, event);
    match event {
      case Connect(token, user, source) => ConnectedKeeps(r, token, user, source);
      case Report(token, id, state) =>
        var entries := EntriesOf(r.clients, token);
        var k := Find(entries, id);
        if k < |entries| {
          UpdatedKeeps(r, token, k, state);
          BroadcastKeeps(Updated(r, token, k, state), token);
        }
      case Disconnect(token, id) =>
        UnregisteredKeeps(r, token, id);
        BroadcastKeeps(Unregistered(r, token, id), token);
      case ChooseSource(user, source) => TellingKeeps(r, SourceSet(r, user, Some(source)));
      case ChooseStream(user) => TellingKeeps(r, SourceSet(r, user, None));
    }
  }

  lemma {:induction false} RunKeepsInv(r: Registry, events: seq<Event>)
    requires Inv(r)
    ensures Inv(Run(r, events))
    decreases |events|
  {
    if events != [] {
      EventKeepsInv(r, events[0]);
      RunKeepsInv(Apply(r, events[0]), events[1..]);
    }
  }

  lemma StartIsGood()
    ensures Inv(Start)
  {
    assert forall name :: Labelled(Start.clients, name) == {};
  }

  // --------------------------------------------------------------- what every run keeps

  /** After every event each registered client was last told its current source and an Icecast
      allowance that is denied exactly while some client of the token is a CLI with output. */
  lemma ClientsAreInformed(events: seq<Event>, t: Token, i: nat)
    requires var r := Run(Start, events); t in r.clients && i < |r.clients[t]|
    ensures var entries := Run(Start, events).clients[t];
            entries[i].sent != [] &&
            var last := entries[i].sent[|entries[i].sent| - 1];
            last.source == entries[i].source &&
            (last.webIcecast <==> !exists j :: 0 <= j < |entries| && entries[j].state.kind == Cli && entries[j].state.icecastOutput)
  {
    StartIsGood();
    RunKeepsInv(Start, events);
  }

  /** The registered CLIs that reported a mode and a platform. */
  ghost function Clis(clients: map<Token, seq<Entry>>, mode: SshMode, platform: Platform): set<Id> {
    set t, i | t in clients && 0 <= i < |clients[t]| && clients[t][i].state.kind == Cli &&
      clients[t][i].state.mode == mode && clients[t][i].state.platform == platform :: clients[t][i].id
  }

  /** The active gauges count the registered CLIs by mode and platform, with none for a webview or
      an unnamed one; the usage counter fires at most once per registration, and the registration
      remembers it; registration ids are unique across tokens and no token has an empty list. */
  lemma MetricsAreConserved(events: seq<Event>, mode: SshMode, platform: Platform)
    ensures var r := Run(Start, events);
            Gauge(r.gauges, Label(mode, platform)) ==
              if mode in {Webview, UnknownMode} || platform == UnknownPlatform then 0 else |Clis(r.clients, mode, platform)|
    ensures var r := Run(Start, events); forall i, j :: 0 <= i < j < |r.usage| ==> r.usage[i] != r.usage[j]
    ensures var r := Run(Start, events); forall t, i :: At(r.clients, t, i) ==> (r.clients[t][i].usageRecorded <==> r.clients[t][i].id in r.usage)
    ensures IdInv(Run(Start, events))
  {
    StartIsGood();
    RunKeepsInv(Start, events);
    var r := Run(Start, events);
    var name := Label(mode, platform);
    LabelledAre(r.clients, name);
    assert Gauge(r.gauges, name) == |Labelled(r.clients, name)|;
  }

  lemma LabelledAre(clients: map<Token, seq<Entry>>, name: Label)
    ensures Labelled(clients, name) ==
            if name.mode in {Webview, UnknownMode} || name.platform == UnknownPlatform then {} else Clis(clients, name.mode, name.platform)
  {
    forall id | id in Labelled(clients, name)
      ensures id in Clis(clients, name.mode, name.platform) && name.mode !in {Webview, UnknownMode} && name.platform != UnknownPlatform
    {
      var t, i :| t in clients && 0 <= i < |clients[t]| && UsageLabel(clients[t][i].state) == Some(name) && id == clients[t][i].id;
      assert clients[t][i].state.kind == Cli;
    }
    if name.mode !in {Webview, UnknownMode} && name.platform != UnknownPlatform {
      forall id | id in Clis(clients, name.mode, name.platform) ensures id in Labelled(clients, name) {
        var t, i :| t in clients && 0 <= i < |clients[t]| && clients[t][i].state.kind == Cli &&
                    clients[t][i].state.mode == name.mode && clients[t][i].state.platform == name.platform && id == clients[t][i].id;
        assert UsageLabel(clients[t][i].state) == Some(name);
      }
    }
  }

  // --------------------------------------------------------------- the other flag

  /** Every client of the token was last told the current embedded-webview allowance. */
  predicate WebviewInformed(entries: seq<Entry>) {
    forall i :: 0 <= i < |entries| ==>
      entries[i].sent != [] && entries[i].sent[|entries[i].sent| - 1].embeddedWebview == EmbeddedWebview(entries)
  }

  /** The embedded-webview allowance is not kept up to date by a report alone: it stays current
      exactly when the report is broadcast or leaves the allowance of the token as it was. */
  lemma WebviewFlagAfterReport(r: Registry, token: Token, id: Id, state: ClientState)
    requires token in r.clients && WebviewInformed(r.clients[token]) && Find(r.clients[token], id) < |r.clients[token]|
    ensures var k := Find(r.clients[token], id);
            var plain := Updated(r, token, k, state).clients[token];
            WebviewInformed(Reported(r, token, id, state).clients[token]) <==>
              MustBroadcast(r.clients[token][k], plain[k]) || EmbeddedWebview(plain) == EmbeddedWebview(r.clients[token])
  {
    var entries := r.clients[token];
    var k := Find(entries, id);
    var plain := Updated(r, token, k, state).clients[token];
    if MustBroadcast(entries[k], plain[k]) {
      ToldAllInformsWebview(plain);
    } else {
      SilenceKeepsWebview(entries, plain, k);
    }
  }

  lemma ToldAllInformsWebview(entries: seq<Entry>)
    ensures WebviewInformed(ToldAll(entries))
  {
    var told := ToldAll(entries);
    assert forall i :: 0 <= i < |entries| ==> IsRealBrowser(told[i]) == IsRealBrowser(entries[i]);
    assert EmbeddedWebview(told) == EmbeddedWebview(entries);
  }

  lemma SilenceKeepsWebview(before: seq<Entry>, after: seq<Entry>, k: nat)
    requires WebviewInformed(before) && k < |before| == |after|
    requires forall i :: 0 <= i < |before| ==> after[i].sent == before[i].sent
    ensures WebviewInformed(after) <==> EmbeddedWebview(after) == EmbeddedWebview(before)
  {
    assert before[k].sent != [] && after[k].sent == before[k].sent;
  }

  /** A client that turns out to be a real browser is such a report. */
  lemma BrowserArrivalIsNotBroadcast(r: Registry, token: Token, id: Id, platform: Platform)
    requires token in r.clients && WebviewInformed(r.clients[token])
    requires |r.clients[token]| == 1 && r.clients[token][0].id == id && r.clients[token][0].state == Unreported
    ensures !WebviewInformed(Reported(r, token, id, ClientState(Browser, UnknownMode, platform, true)).clients[token])
  {
    var state := ClientState(Browser, UnknownMode, platform, true);
    var plain := Updated(r, token, 0, state).clients[token];
    assert IsRealBrowser(plain[0]);
    WebviewFlagAfterReport(r, token, id, state);
  }

  // --------------------------------------------------------------- what an event changes

  function Found(entries: seq<Entry>, id: Id): Option<Entry> {
    if Find(entries, id) < |entries| then Some(entries[Find(entries, id)]) else None
  }

  /** A registration, if it is there. */
  function Registered(r: Registry, token: Token, id: Id): Option<Entry> { Found(EntriesOf(r.clients, token), id) }

  /** The same but for what it was told. */
  predicate SameFor(a: Option<Entry>, b: Option<Entry>) {
    && (a.Some? <==> b.Some?)
    && (a.Some? ==> a.value.(sent := []) == b.value.(sent := []))
  }

  predicate NamesUsage(s: ClientState) {
    s.kind == Cli && s.mode in {Native, OpenSsh, Old} && s.platform in {Android, Linux, Macos, Windows}
  }

  lemma {:induction false} FindAlike(a: seq<Entry>, b: seq<Entry>, id: Id)
    requires |a| == |b| && forall i :: 0 <= i < |a| ==> a[i].id == b[i].id
    ensures Find(a, id) == Find(b, id)
    decreases |a|
  {
    if a != [] && a[0].id != id {
      FindAlike(a[1..], b[1..], id);
    }
  }

  lemma {:induction false} FindIs(entries: seq<Entry>, id: Id, k: nat)
    requires k < |entries| && entries[k].id == id && forall i :: 0 <= i < k ==> entries[i].id != id
    ensures Find(entries, id) == k
    decreases k
  {
    if k > 0 {
      FindIs(entries[1..], id, k - 1);
    }
  }

  lemma FindMore(entries: seq<Entry>, e: Entry, id: Id)
    requires forall i :: 0 <= i < |entries| ==> entries[i].id != e.id
    ensures Find(entries + [e], id) == if id == e.id then |entries| else if Find(entries, id) < |entries| then Find(entries, id) else |entries| + 1
  {
    var more := entries + [e];
    var k := Find(entries, id);
    assert forall i :: 0 <= i < |entries| ==> more[i] == entries[i];
    if id == e.id {
      FindIs(more, id, |entries|);
    } else if k < |entries| {
      FindIs(more, id, k);
    } else {
      assert forall i :: 0 <= i < |more| ==> more[i].id != id;
    }
  }

  lemma FindLess(entries: seq<Entry>, gone: nat, id: Id)
    requires gone < |entries| && forall i, j :: 0 <= i < j < |entries| ==> entries[i].id != entries[j].id
    ensures Found(entries[..gone] + entries[gone + 1..], id) == if id == entries[gone].id then None else Found(entries, id)
  {
    var rest := entries[..gone] + entries[gone + 1..];
    var k := Find(entries, id);
    assert forall i :: 0 <= i < |rest| ==> rest[i] == entries[if i < gone then i else i + 1];
    if k < |entries| && k != gone {
      FindIs(rest, id, if k < gone then k else k - 1);
    } else {
      FindIs(entries, entries[gone].id, gone);
      forall i | 0 <= i < |rest| ensures rest[i].id != id {
        assert k == gone ==> entries[if i < gone then i else i + 1].id != entries[gone].id;
      }
    }
  }

  lemma BroadcastChanges(r: Registry, token: Token, t: Token, id: Id)
    ensures SameFor(Registered(r, t, id), Registered(Broadcast(r, token), t, id))
  {
    FindAlike(EntriesOf(r.clients, t), EntriesOf(Broadcast(r, token).clients, t), id);
  }

  lemma ConnectChanges(r: Registry, token: Token, user: User, source: Source, t: Token, id: Id)
    requires IdInv(r)
    ensures var after := Registered(Connected(r, token, user, source), t, id);
            if t == token && id == r.lastId + 1 then SameFor(after, Some(Entry(id, Unreported, false, user, source, [])))
            else after == Registered(r, t, id)
  {
    if t == token {
      var entries := EntriesOf(r.clients, token);
      forall i | 0 <= i < |entries| ensures entries[i].id != r.lastId + 1 {
        assert At(r.clients, token, i);
      }
      var more := Connected(r, token, user, source).clients[token];
      assert more == entries + [more[|entries|]];
      FindMore(entries, more[|entries|], id);
    }
  }

  lemma UpdateChanges(r: Registry, token: Token, k: nat, state: ClientState, t: Token, id: Id)
    requires IdInv(r) && token in r.clients && k < |r.clients[token]|
    ensures var e := r.clients[token][k];
            var before, after := Registered(r, t, id), Registered(Updated(r, token, k, state), t, id);
            if t == token && id == e.id
            then before == Some(e) && after == Some(e.(state := state, usageRecorded := e.usageRecorded || NamesUsage(state)))
            else after == before
  {
    FindAlike(EntriesOf(r.clients, t), EntriesOf(Updated(r, token, k, state).clients, t), id);
    if t == token {
      DistinctIn(r, token);
      FindIs(r.clients[token], r.clients[token][k].id, k);
    }
  }

  lemma UnregisterChanges(r: Registry, token: Token, gone: Id, t: Token, id: Id)
    requires IdInv(r)
    ensures var after := Registered(Unregistered(r, token, gone), t, id);
            if t == token && id == gone then after.None? else after == Registered(r, t, id)
  {
    var k := Find(EntriesOf(r.clients, token), gone);
    if k < |EntriesOf(r.clients, token)| && t == token {
      UnregisteredLeaves(r, token, gone, k);
      DistinctIn(r, token);
      FindLess(r.clients[token], k, id);
    }
  }

  lemma UnregisteredLeaves(r: Registry, token: Token, gone: Id, k: nat)
    requires token in r.clients && k == Find(r.clients[token], gone) < |r.clients[token]|
    ensures EntriesOf(Unregistered(r, token, gone).clients, token) == r.clients[token][..k] + r.clients[token][k + 1..]
  {
  }

  lemma ReportChanges(r: Registry, token: Token, who: Id, state: ClientState, t: Token, id: Id)
    requires IdInv(r)
    ensures var before, after := Registered(r, t, id), Registered(Reported(r, token, who, state), t, id);
            if t == token && id == who && before.Some?
            then SameFor(after, Some(before.value.(state := state, usageRecorded := before.value.usageRecorded || NamesUsage(state))))
            else SameFor(after, before)
  {
    var entries := EntriesOf(r.clients, token);
    var k := Find(entries, who);
    if k < |entries| {
      var updated := Updated(r, token, k, state);
      UpdateChanges(r, token, k, state, t, id);
      BroadcastChanges(updated, token, t, id);
      assert Reported(r, token, who, state) == updated || Reported(r, token, who, state) == Broadcast(updated, token);
    }
  }

  /** What each event does to each registration: a client connects under a fresh number, with the
      source given and nothing reported; it goes with its own disconnection; its state is what it
      reported last, its source what its user chose last, and its usage is recorded with the first
      report that names a CLI's mode and platform.  Nothing else about it ever changes. */
  lemma EventChangesOnly(r: Registry, event: Event, t: Token, id: Id)
    requires IdInv(r)
    ensures var before, after := Registered(r, t, id), Registered(Apply(r, event), t, id);
            match event
            case Connect(token, user, source) =>
              SameFor(after, if t == token && id == r.lastId + 1 then Some(Entry(id, Unreported, false, user, source, [])) else before)
            case Disconnect(token, gone) => SameFor(after, if t == token && id == gone then None else before)
            case Report(token, who, state) =>
              SameFor(after, if t == token && id == who && before.Some?
                             then Some(before.value.(state := state, usageRecorded := before.value.usageRecorded || NamesUsage(state)))
                             else before)
            case ChooseSource(user, source) =>
              SameFor(after, if before.Some? && before.value.user == user then Some(before.value.(source := source)) else before)
            case ChooseStream(_) => SameFor(after, before)
  {
    match event
    case Connect(token, user, source) => ConnectChanges(r, token, user, source, t, id);
    case Disconnect(token, gone) =>
      UnregisterChanges(r, token, gone, t, id);
      BroadcastChanges(Unregistered(r, token, gone), token, t, id);
    case Report(token, who, state) => ReportChanges(r, token, who, state, t, id);
    case ChooseSource(user, source) =>
      FindAlike(EntriesOf(r.clients, t), EntriesOf(SourceSet(r, user, Some(source)).clients, t), id);
    case ChooseStream(user) =>
      FindAlike(EntriesOf(r.clients, t), EntriesOf(SourceSet(r, user, None).clients, t), id);
  }

  // --------------------------------------------------------------- who is told what

  predicate HasOutput(s: ClientState) { s.kind == Cli && s.icecastOutput }

  /** The message for a client of the token: its source, Icecast allowed while no CLI has output,
      the embedded webview while there is no browser but a webview. */
  predicate IsCurrent(m: Message, source: Source, entries: seq<Entry>) {
    && m.source == source
    && (m.webIcecast <==> forall i :: 0 <= i < |entries| ==> !HasOutput(entries[i].state))
    && (m.embeddedWebview <==> forall i :: 0 <= i < |entries| ==> entries[i].state.kind != Browser || entries[i].state.mode == Webview)
  }

  /** Whether an event reaches a client registered before and after it. */
  predicate Reaches(r: Registry, event: Event, t: Token, user: User) {
    match event
    case Connect(_, _, _) => false
    case Disconnect(token, _) => t == token
    case Report(token, who, state) =>
      && t == token && Registered(r, token, who).Some?
      && var was := Registered(r, token, who).value.state;
         (was.kind == Cli) != (state.kind == Cli) || HasOutput(was) != HasOutput(state)
    case ChooseSource(chooser, _) => user == chooser
    case ChooseStream(chooser) => user == chooser
  }

  predicate ToldCurrent(before: seq<Message>, after: Entry, entries: seq<Entry>) {
    |after.sent| == |before| + 1 && after.sent[..|before|] == before && IsCurrent(after.sent[|before|], after.source, entries)
  }

  lemma BroadcastTells(r: Registry, token: Token, id: Id)
    requires Registered(r, token, id).Some?
    ensures var r' := Broadcast(r, token);
            Registered(r', token, id).Some? &&
            ToldCurrent(Registered(r, token, id).value.sent, Registered(r', token, id).value, EntriesOf(r'.clients, token))
  {
    var entries := r.clients[token];
    var told := ToldAll(entries);
    FindAlike(entries, told, id);
    assert forall i :: 0 <= i < |entries| ==> told[i].state == entries[i].state;
  }

  lemma ReportTells(r: Registry, token: Token, who: Id, state: ClientState, t: Token, id: Id)
    requires IdInv(r) && Registered(r, t, id).Some?
    ensures var before, r' := Registered(r, t, id).value, Reported(r, token, who, state);
            Registered(r', t, id).Some? &&
            var after := Registered(r', t, id).value;
            if Reaches(r, Report(token, who, state), t, before.user) then ToldCurrent(before.sent, after, EntriesOf(r'.clients, t))
            else after.sent == before.sent
  {
    var entries := EntriesOf(r.clients, token);
    var k := Find(entries, who);
    if k < |entries| {
      var updated := Updated(r, token, k, state);
      UpdateChanges(r, token, k, state, t, id);
      if t == token {
        BroadcastTells(updated, token, id);
        ReachesIff(r, token, k, state);
      }
    }
  }

  lemma ReachesIff(r: Registry, token: Token, k: nat, state: ClientState)
    requires token in r.clients && k < |r.clients[token]| && Find(r.clients[token], r.clients[token][k].id) == k
    ensures var e := r.clients[token][k];
            forall user :: Reaches(r, Report(token, e.id, state), token, user) <==> MustBroadcast(e, Updated(r, token, k, state).clients[token][k])
  {
  }

  lemma ChoiceTells(r: Registry, user: User, source: Option<Source>, t: Token, id: Id)
    requires Registered(r, t, id).Some?
    ensures var before, r' := Registered(r, t, id).value, SourceSet(r, user, source);
            Registered(r', t, id).Some? &&
            var after := Registered(r', t, id).value;
            if before.user == user then ToldCurrent(before.sent, after, EntriesOf(r'.clients, t)) else after.sent == before.sent
  {
    var entries := r.clients[t];
    var after := Resourced(entries, user, source);
    FindAlike(entries, after, id);
    assert forall i :: 0 <= i < |entries| ==> after[i].state == entries[i].state;
  }

  lemma ReleaseTells(r: Registry, token: Token, gone: Id, t: Token, id: Id)
    requires IdInv(r) && Registered(r, t, id).Some? && !(t == token && id == gone)
    ensures var before, r' := Registered(r, t, id).value, Released(r, token, gone);
            Registered(r', t, id).Some? &&
            var after := Registered(r', t, id).value;
            if t == token then ToldCurrent(before.sent, after, EntriesOf(r'.clients, t)) else after.sent == before.sent
  {
    UnregisterChanges(r, token, gone, t, id);
    if t == token {
      BroadcastTells(Unregistered(r, token, gone), token, id);
    }
  }

  /** Which clients an event reaches, and with what: after a disconnection everyone left on the
      token, after a report that changes who is a CLI or has output everyone on the token, after a
      choice every client of the user; each gets one message, current as of then.  Nobody else is
      sent anything, and nothing sent is taken back. */
  lemma EventTellsOnly(r: Registry, event: Event, t: Token, id: Id)
    requires IdInv(r) && Registered(r, t, id).Some? && event != Disconnect(t, id)
    ensures var before, r' := Registered(r, t, id).value, Apply(r, event);
            Registered(r', t, id).Some? &&
            var after := Registered(r', t, id).value;
            if Reaches(r, event, t, before.user) then ToldCurrent(before.sent, after, EntriesOf(r'.clients, t))
            else after.sent == before.sent
  {
    match event
    case Connect(token, user, source) =>
      ConnectChanges(r, token, user, source, t, id);
      KnownId(r, t, id);
    case Disconnect(token, gone) => ReleaseTells(r, token, gone, t, id);
    case Report(token, who, state) => ReportTells(r, token, who, state, t, id);
    case ChooseSource(user, source) => ChoiceTells(r, user, Some(source), t, id);
    case ChooseStream(user) => ChoiceTells(r, user, None, t, id);
  }

  lemma ConnectedIs(r: Registry, token: Token, user: User, source: Source)
    ensures var entries := EntriesOf(r.clients, token);
            var e := Entry(r.lastId + 1, Unreported, false, user, source, []);
            EntriesOf(Connected(r, token, user, source).clients, token) ==
              entries + [Told(e, WebIcecast(entries + [e]), EmbeddedWebview(entries + [e]))]
  {
  }

  lemma LastIsTold(entries: seq<Entry>, e: Entry, told: Entry)
    requires e.sent == [] && told == Told(e, WebIcecast(entries + [e]), EmbeddedWebview(entries + [e]))
    ensures |told.sent| == 1 && IsCurrent(told.sent[0], e.source, entries + [told])
  {
    var added, more := entries + [e], entries + [told];
    assert forall i :: 0 <= i < |more| ==> more[i].state == added[i].state;
  }

  /** A newcomer is told once, what is current with it there. */
  lemma NewcomerIsTold(r: Registry, token: Token, user: User, source: Source)
    requires IdInv(r)
    ensures var r' := Connected(r, token, user, source);
            var e := Registered(r', token, r.lastId + 1);
            e.Some? && |e.value.sent| == 1 && IsCurrent(e.value.sent[0], source, EntriesOf(r'.clients, token))
  {
    var entries := EntriesOf(r.clients, token);
    var e := Entry(r.lastId + 1, Unreported, false, user, source, []);
    var told := Told(e, WebIcecast(entries + [e]), EmbeddedWebview(entries + [e]));
    forall i | 0 <= i < |entries| ensures entries[i].id != told.id {
      assert At(r.clients, token, i);
    }
    ConnectedIs(r, token, user, source);
    LastIsTold(entries, e, told);
    FindMore(entries, told, told.id);
  }

  lemma KnownId(r: Registry, t: Token, id: Id)
    requires IdInv(r) && Registered(r, t, id).Some?
    ensures id <= r.lastId
  {
    assert At(r.clients, t, Find(r.clients[t], id));
  }

  // --------------------------------------------------------------- the registry in place

  method AnyClaims(entries: seq<Entry>) returns (any: bool)
    ensures any <==> !WebIcecast(entries)
  {
    for i := 0 to |entries|
      invariant forall j :: 0 <= j < i ==> !ClaimsIcecast(entries[j])
    {
      if ClaimsIcecast(entries[i]) {
        return true;
      }
    }
    return false;
  }

  method AnyRealBrowser(entries: seq<Entry>) returns (any: bool)
    ensures any <==> !EmbeddedWebview(entries)
  {
    for i := 0 to |entries|
      invariant forall j :: 0 <= j < i ==> !IsRealBrowser(entries[j])
    {
      if IsRealBrowser(entries[i]) {
        return true;
      }
    }
    return false;
  }

  /** The position of a registration, or the number of entries. */
  method Position(entries: seq<Entry>, id: Id) returns (k: nat)
    ensures k == Find(entries, id)
  {
    k := 0;
    while k < |entries| && entries[k].id != id
      invariant k <= |entries| && Find(entries, id) == k + Find(entries[k..], id)
    {
      k := k + 1;
    }
  }

  lemma SourceSetIs(r: Registry, user: User, source: Option<Source>, clients: map<Token, seq<Entry>>)
    requires clients.Keys == r.clients.Keys
    requires forall t :: t in r.clients ==> clients[t] == Resourced(r.clients[t], user, source)
    ensures SourceSet(r, user, source).clients == clients
  {
    var expected := SourceSet(r, user, source).clients;
    assert expected.Keys == clients.Keys;
    assert forall t :: t in expected ==> expected[t] == clients[t];
  }

  class PairedClientRegistry {
    var clients: map<Token, seq<Entry>>
    var lastId: Id
    var gauges: map<Label, int>
    var usage: seq<Id>

    ghost function View(): Registry
      reads this
    {
      Registry(clients, lastId, gauges, usage)
    }

    constructor ()
      ensures View() == Start
    {
      clients, lastId, gauges, usage := map[], 0, map[], [];
    }

    /** register, followed by the initial playback message. */
    method Register(token: Token, user: User, source: Source) returns (id: Id)
      modifies this
      ensures View() == Connected(old(View()), token, user, source) && id == lastId
    {
      lastId := lastId + 1;
      id := lastId;
      var entries := if token in clients then clients[token] else [];
      entries := entries + [Entry(id, Unreported, false, user, source, [])];
      var claims := AnyClaims(entries);
      var browser := AnyRealBrowser(entries);
      var last := |entries| - 1;
      clients := clients[token := entries[last := Told(entries[last], !claims, !browser)]];
    }

    method BroadcastPlaybackSource(token: Token)
      modifies this`clients
      ensures View() == Broadcast(old(View()), token)
    {
      if token !in clients {
        return;
      }
      var entries := clients[token];
      var claims := AnyClaims(entries);
      var browser := AnyRealBrowser(entries);
      var told := [];
      for i := 0 to |entries|
        invariant |told| == i && forall j :: 0 <= j < i ==> told[j] == Told(entries[j], !claims, !browser)
      {
        told := told + [Told(entries[i], !claims, !browser)];
      }
      assert told == ToldAll(entries);
      clients := clients[token := told];
    }

    method AddGauge(name: Option<Label>, delta: int)
      modifies this`gauges
      ensures gauges == Bumped(old(gauges), name, delta)
    {
      if name.Some? {
        var value := if name.value in gauges then gauges[name.value] else 0;
        gauges := gauges[name.value := value + delta];
      }
    }

    /** The ClientState branch of handle_socket: update, then broadcast if CLI presence or
        the Icecast claim changed. */
    method Report(token: Token, id: Id, state: ClientState)
      modifies this
      ensures View() == Reported(old(View()), token, id, state)
    {
      if token !in clients {
        return;
      }
      var entries := clients[token];
      var k := Position(entries, id);
      if k == |entries| {
        return;
      }
      var e := entries[k];
      var before, after := UsageLabel(e.state), UsageLabel(state);
      if before != after {
        AddGauge(before, -1);
        AddGauge(after, 1);
      }
      var recorded := e.usageRecorded;
      if !recorded && after.Some? {
        usage := usage + [e.id];
        recorded := true;
      }
      var updated := e.(state := state, usageRecorded := recorded);
      clients := clients[token := entries[k := updated]];
      if (e.state.kind == Cli) != (state.kind == Cli) || ClaimsIcecast(e) != ClaimsIcecast(updated) {
        BroadcastPlaybackSource(token);
      }
    }

    method UnregisterIfMatch(token: Token, id: Id)
      modifies this
      ensures View() == Unregistered(old(View()), token, id)
    {
      if token !in clients {
        return;
      }
      var entries := clients[token];
      var k := Position(entries, id);
      if k == |entries| {
        return;
      }
      var removed := entries[k];
      entries := entries[..k] + entries[k + 1..];
      AddGauge(UsageLabel(removed.state), -1);
      clients := if entries == [] then clients - {token} else clients[token := entries];
    }

    /** release_pair_registration. */
    method Release(token: Token, id: Id)
      modifies this
      ensures View() == Released(old(View()), token, id)
    {
      UnregisterIfMatch(token, id);
      BroadcastPlaybackSource(token);
    }

    /** set_audio_source and update_stream_choice: the map is walked in no particular order. */
    method SetSource(user: User, source: Option<Source>)
      modifies this`clients
      ensures View() == SourceSet(old(View()), user, source)
    {
      ghost var before := clients;
      var todo := clients.Keys;
      while todo != {}
        invariant clients.Keys == before.Keys && todo <= before.Keys
        invariant forall t :: t in before ==>
                    clients[t] == if t in todo then before[t] else Resourced(before[t], user, source)
        decreases |todo|
      {
        var token := Pick(todo);
        var entries := clients[token];
        var claims := AnyClaims(entries);
        var browser := AnyRealBrowser(entries);
        var i, result := 0, entries;
        while i < |entries|
          invariant i <= |entries| == |result|
          invariant forall j :: 0 <= j < |entries| ==>
                      result[j] == if j < i then Resourced(entries, user, source)[j] else entries[j]
        {
          if entries[i].user == user {
            var e := entries[i];
            if source.Some? {
              e := e.(source := source.value);
            }
            result := result[i := Told(e, !claims, !browser)];
          }
          i := i + 1;
        }
        assert result == Resourced(entries, user, source);
        clients := clients[token := result];
        todo := todo - {token};
      }
      SourceSetIs(old(View()), user, source, clients);
    }
  }
}
