/**
 * The game server's bookkeeping (server/src/lib.rs): client sessions and
 * their message batches, chat routing and commands, the terrain chunk
 * pipeline, deaths and respawns, and the per-tick replication to clients.
 *
 * Networking becomes an inbox per session and one outbox of addressed
 * messages; the worker pool becomes a set of running jobs and a queue of
 * finished chunks. Clients are visited in `order`, a fixed order standing in
 * for the iteration order of the clients map.
 */
module Server {
  import opened Components
  import opened Protocol

  /** A message queued for one client's postbox. */
  datatype Envelope = Envelope(to: Entity, msg: ServerMsg)

  /** What a tick reports to the frontend. */
  datatype Event =
    | ClientConnected(entity: Entity)
    | ClientDisconnected(entity: Entity)
    | Chat(sender: Option<Entity>, msg: string)

  /** A recognised chat command, handed to its handler with its arguments. */
  datatype Invocation = Invocation(entity: Entity, keyword: string, args: string)

  /** A chunk a worker finished generating, waiting to be drained. */
  datatype Finished = Finished(key: ChunkKey, chunk: Chunk)

  /** What `tick` returns: the network's error, or the frontend events of the tick. */
  datatype TickResult = NetworkError | Ok(events: seq<Event>)

  lemma AppendAssoc<T>(a: seq<T>, b: seq<T>, c: seq<T>)
    ensures (a + b) + c == a + (b + c)
  {
  }

  // ---------------------------------------------------------------------------
  // Recipients

  predicate IsRegistered(st: ClientState) { st != Connected }

  function RegisteredClients(sessions: map<Entity, Session>): set<Entity> {
    set e | e in sessions && IsRegistered(sessions[e].state)
  }

  function InGameClients(sessions: map<Entity, Session>): set<Entity> {
    set e | e in sessions && InGame(sessions[e].state)
  }

  /** One copy of `msg` for each client of `order` that is in `to`, in that order. */
  function Fanout(order: seq<Entity>, to: set<Entity>, msg: ServerMsg): (r: seq<Envelope>)
    ensures forall x :: Envelope(x, msg) in r <==> x in order && x in to
    ensures forall m :: m in r ==> m.msg == msg
    decreases |order|
  {
    if order == [] then []
    else
      var x := order[|order| - 1];
      assert forall y :: y in order <==> y in order[..|order| - 1] || y == x;
      Fanout(order[..|order| - 1], to, msg) + (if x in to then [Envelope(x, msg)] else [])
  }

  /** Over distinct clients each recipient gets exactly one copy: no two envelopes share an addressee. */
  lemma {:induction false} FanoutOnce(order: seq<Entity>, to: set<Entity>, msg: ServerMsg)
    requires Distinct(order)
    ensures forall i, j :: 0 <= i < j < |Fanout(order, to, msg)| ==> Fanout(order, to, msg)[i].to != Fanout(order, to, msg)[j].to
    decreases |order|
  {
    if order != [] {
      var pre, x := order[..|order| - 1], order[|order| - 1];
      DistinctPrefix(order);
      FanoutOnce(pre, to, msg);
      var f, r := Fanout(pre, to, msg), Fanout(order, to, msg);
      assert forall i, j :: 0 <= i < j < |f| ==> f[i].to != f[j].to;
      assert r == f + (if x in to then [Envelope(x, msg)] else []);
      forall i, j | 0 <= i < j < |r| ensures r[i].to != r[j].to {
        if j >= |f| {
          assert r[j].to == x && r[i] == f[i] && f[i] in f;
          assert Envelope(f[i].to, msg) in f;
          assert f[i].to in pre && x !in pre;
        } else {
          assert r[i] == f[i] && r[j] == f[j];
          assert f[i].to != f[j].to;
        }
      }
    }
  }

  /** The messages of one session's turn, addressed to it. */
  function Addressed(e: Entity, msgs: seq<ServerMsg>): (r: seq<Envelope>)
    ensures |r| == |msgs| && forall i :: 0 <= i < |r| ==> r[i] == Envelope(e, msgs[i])
  {
    seq(|msgs|, i requires 0 <= i < |msgs| => Envelope(e, msgs[i]))
  }

  /** `s` without the entities outside `keep`, order kept. */
  function Keep(s: seq<Entity>, keep: set<Entity>): (r: seq<Entity>)
    ensures forall x :: x in r <==> x in s && x in keep
    ensures Distinct(s) ==> Distinct(r)
    decreases |s|
  {
    if s == [] then []
    else
      var rest := Keep(s[..|s| - 1], keep);
      var x := s[|s| - 1];
      assert forall y :: y in s <==> y in s[..|s| - 1] || y == x;
      if x in keep then rest + [x] else rest
  }

  // ---------------------------------------------------------------------------
  // Chat

  /** The index of the first space of `s`, if it has one. */
  function FindSpace(s: string): (r: Option<nat>)
    ensures r.Some? ==> r.value < |s| && s[r.value] == ' ' && ' ' !in s[..r.value]
    ensures r.None? <==> ' ' !in s
  {
    if s == [] then None
    else if s[0] == ' ' then Some(0)
    else match FindSpace(s[1..])
      case None => None
      case Some(i) =>
        assert s[..i + 1] == [s[0]] + s[1..][..i];
        Some(i + 1)
  }

  /** `process_chat_cmd`'s split into keyword and arguments at the first space. */
  function SplitCommand(cmd: string): (string, string) {
    match FindSpace(cmd)
    case Some(i) => (cmd[..i], cmd[i + 1..])
    case None => (cmd, "")
  }

  /** The keyword never holds a space; with a space the text is keyword, space, arguments, and without one the keyword is everything and the arguments are empty. */
  lemma SplitCommandParts(cmd: string)
    ensures var (kwd, args) := SplitCommand(cmd);
      && ' ' !in kwd
      && (if ' ' in cmd then cmd == kwd + " " + args else kwd == cmd && args == "")
  {
    var r := FindSpace(cmd);
    if r.Some? {
      assert cmd == cmd[..r.value] + " " + cmd[r.value + 1..];
    }
  }

  function Unrecognised(kwd: string): string {
    "Unrecognised command: '/" + kwd + "'\ntype '/help' for a list of available commands"
  }

  /** Whether a queued chat line is a command: sent by an entity, starting with "/" and longer than that. */
  predicate IsCommand(line: ChatLine) {
    line.from.Some? && |line.text| > 1 && line.text[0] == '/'
  }

  /** The text every registered client sees for a chat line that is not a command. */
  function Shown(line: ChatLine, players: map<Entity, Player>): (r: string)
    ensures line.from.None? ==> r == line.text
    ensures |line.text| <= |r| && r[|r| - |line.text|..] == line.text
  {
    match line.from
    case None => line.text
    case Some(e) => (if e in players then "[" + players[e].alias + "] " else "[<anon>] ") + line.text
  }

  /** What routing chat adds to the outbox and to the command log. */
  datatype Routing = Routing(sent: seq<Envelope>, log: seq<Invocation>)

  /** The routing of one chat line. */
  function RouteLine(line: ChatLine, players: map<Entity, Player>, commands: set<string>,
                     order: seq<Entity>, sessions: map<Entity, Session>): Routing
  {
    if IsCommand(line) then
      var (kwd, args) := SplitCommand(line.text[1..]);
      if kwd in commands then Routing([], [Invocation(line.from.value, kwd, args)])
      else Routing(if line.from.value in sessions
                   then [Envelope(line.from.value, ServerMsg.Chat(Unrecognised(kwd)))] else [], [])
    else Routing(Fanout(order, RegisteredClients(sessions), ServerMsg.Chat(Shown(line, players))), [])
  }

  /** A command reaches its handler or is answered to its sender only; any other line goes to every registered client and to no one else. */
  lemma RouteLineRule(line: ChatLine, players: map<Entity, Player>, commands: set<string>,
                      order: seq<Entity>, sessions: map<Entity, Session>)
    ensures var sent, log := RouteLine(line, players, commands, order, sessions).sent, RouteLine(line, players, commands, order, sessions).log;
      if IsCommand(line) then
        var (kwd, args) := SplitCommand(line.text[1..]);
        && (kwd in commands ==> sent == [] && log == [Invocation(line.from.value, kwd, args)])
        && (kwd !in commands ==> log == [] && forall m :: m in sent ==> m.to == line.from.value)
      else
        && log == []
        && forall x :: Envelope(x, ServerMsg.Chat(Shown(line, players))) in sent
             <==> x in order && x in sessions && sessions[x].state != Connected
  {
  }

  /** The lines of a batch routed in order. */
  function RouteAll(lines: seq<ChatLine>, players: map<Entity, Player>, commands: set<string>,
                    order: seq<Entity>, sessions: map<Entity, Session>): Routing
    decreases |lines|
  {
    if lines == [] then Routing([], [])
    else
      var before := RouteAll(lines[..|lines| - 1], players, commands, order, sessions);
      var last := RouteLine(lines[|lines| - 1], players, commands, order, sessions);
      Routing(before.sent + last.sent, before.log + last.log)
  }

  lemma RouteAllStep(lines: seq<ChatLine>, i: nat, players: map<Entity, Player>, commands: set<string>,
                     order: seq<Entity>, sessions: map<Entity, Session>)
    requires i < |lines|
    ensures var before := RouteAll(lines[..i], players, commands, order, sessions);
      var last := RouteLine(lines[i], players, commands, order, sessions);
      RouteAll(lines[..i + 1], players, commands, order, sessions) == Routing(before.sent + last.sent, before.log + last.log)
  {
    assert lines[..i + 1][..i] == lines[..i];
  }

  /** Routing one more line extends the accumulated outbox and command log by that line's routing. */
  lemma RouteAllExtends(lines: seq<ChatLine>, i: nat, players: map<Entity, Player>, commands: set<string>,
                        order: seq<Entity>, sessions: map<Entity, Session>,
                        o0: seq<Envelope>, o1: seq<Envelope>, o2: seq<Envelope>,
                        g0: seq<Invocation>, g1: seq<Invocation>, g2: seq<Invocation>)
    requires i < |lines|
    requires o1 == o0 + RouteAll(lines[..i], players, commands, order, sessions).sent
    requires g1 == g0 + RouteAll(lines[..i], players, commands, order, sessions).log
    requires o2 == o1 + RouteLine(lines[i], players, commands, order, sessions).sent
    requires g2 == g1 + RouteLine(lines[i], players, commands, order, sessions).log
    ensures o2 == o0 + RouteAll(lines[..i + 1], players, commands, order, sessions).sent
    ensures g2 == g0 + RouteAll(lines[..i + 1], players, commands, order, sessions).log
  {
    RouteAllStep(lines, i, players, commands, order, sessions);
    var before := RouteAll(lines[..i], players, commands, order, sessions);
    var line := RouteLine(lines[i], players, commands, order, sessions);
    AppendAssoc(o0, before.sent, line.sent);
    AppendAssoc(g0, before.log, line.log);
  }

  /** One frontend Chat event per queued line, in order. */
  function ChatEvents(lines: seq<ChatLine>): (r: seq<Event>)
    ensures |r| == |lines|
    ensures forall i :: 0 <= i < |r| ==> r[i] == Event.Chat(lines[i].from, lines[i].text)
    decreases |lines|
  {
    if lines == [] then []
    else ChatEvents(lines[..|lines| - 1]) + [Event.Chat(lines[|lines| - 1].from, lines[|lines| - 1].text)]
  }

  lemma ChatEventsStep(lines: seq<ChatLine>, i: nat)
    requires i < |lines|
    ensures ChatEvents(lines[..i + 1]) == ChatEvents(lines[..i]) + [Event.Chat(lines[i].from, lines[i].text)]
  {
    assert lines[..i + 1][..i] == lines[..i];
  }

  /** The sessions after `added` connected at `now`: each new one starts Connected. */
  function Admit(ss: map<Entity, Session>, added: seq<Entity>, now: real): (r: map<Entity, Session>)
    decreases |added|
  {
    if added == [] then ss
    else
      Admit(ss, added[..|added| - 1], now)[added[|added| - 1] := Session(Connected, now, [], false)]
  }

  /** The Uid storage after `added` were created in order, counting up from `next`. */
  function NumberUids(uids: map<Entity, Uid>, added: seq<Entity>, next: Uid): (r: map<Entity, Uid>)
    decreases |added|
  {
    if added == [] then uids
    else
      NumberUids(uids, added[..|added| - 1], next)[added[|added| - 1] := next + |added| - 1]
  }

  /** Admitting `added` creates exactly their sessions, each Connected since `now`, and leaves every other one alone. */
  lemma {:induction false} AdmitMeaning(ss: map<Entity, Session>, added: seq<Entity>, now: real)
    ensures forall x :: x in Admit(ss, added, now) <==> x in ss || x in added
    ensures forall x :: x in added ==> Admit(ss, added, now)[x] == Session(Connected, now, [], false)
    ensures forall x :: x in ss && x !in added ==> Admit(ss, added, now)[x] == ss[x]
    decreases |added|
  {
    if added != [] {
      var last := added[|added| - 1];
      assert forall x :: x in added <==> x in added[..|added| - 1] || x == last;
      AdmitMeaning(ss, added[..|added| - 1], now);
    }
  }

  /** Numbering `added` gives each new entity its own Uid, `next` onwards in creation order, and keeps every other Uid. */
  lemma {:induction false} NumberUidsMeaning(uids: map<Entity, Uid>, added: seq<Entity>, next: Uid)
    ensures forall x :: x in NumberUids(uids, added, next) <==> x in uids || x in added
    ensures forall x :: x in uids && x !in added ==> NumberUids(uids, added, next)[x] == uids[x]
    ensures Distinct(added) ==> forall j :: 0 <= j < |added| ==> NumberUids(uids, added, next)[added[j]] == next + j
    decreases |added|
  {
    if added != [] {
      var last := added[|added| - 1];
      assert forall x :: x in added <==> x in added[..|added| - 1] || x == last;
      if Distinct(added) { DistinctPrefix(added); }
      NumberUidsMeaning(uids, added[..|added| - 1], next);
    }
  }

  /** One frontend ClientConnected event per new client, in order. */
  function Arrivals(added: seq<Entity>): (r: seq<Event>)
    ensures |r| == |added|
    ensures forall i :: 0 <= i < |r| ==> r[i] == ClientConnected(added[i])
    decreases |added|
  {
    if added == [] then []
    else Arrivals(added[..|added| - 1]) + [ClientConnected(added[|added| - 1])]
  }


  /**
   * The state after the clients `added` connected, in order, from the state (es0, ord0, ss0, c0, uid0): each is a
   * fresh entity, listed last in the client order, with a Connected session and the next Uid, and each is reported.
   */
  ghost predicate Joined(es0: seq<Entity>, ord0: seq<Entity>, ss0: map<Entity, Session>, c0: Storages, uid0: Uid, now: real,
                         added: seq<Entity>,
                         es: seq<Entity>, ord: seq<Entity>, ss: map<Entity, Session>, c: Storages, next: Uid,
                         events: seq<Event>)
  {
    && es == es0 + added && ord == ord0 + added
    && Distinct(added) && (forall x :: x in added ==> x !in es0)
    && next == uid0 + |added|
    && ss == Admit(ss0, added, now)
    && c == c0.(uids := NumberUids(c0.uids, added, uid0))
    && events == Arrivals(added)
  }

  lemma JoinedStep(es0: seq<Entity>, ord0: seq<Entity>, ss0: map<Entity, Session>, c0: Storages, uid0: Uid, now: real,
                   added: seq<Entity>,
                   es: seq<Entity>, ord: seq<Entity>, ss: map<Entity, Session>, c: Storages, next: Uid,
                   events: seq<Event>, e: Entity)
    requires Joined(es0, ord0, ss0, c0, uid0, now, added, es, ord, ss, c, next, events) && e !in es
    ensures Joined(es0, ord0, ss0, c0, uid0, now, added + [e],
                   es + [e], ord + [e], ss[e := Session(Connected, now, [], false)],
                   c.(uids := c.uids[e := next]), next + 1, events + [ClientConnected(e)])
  {
    AppendAssoc(es0, added, [e]);
    AppendAssoc(ord0, added, [e]);
    assert (added + [e])[..|added|] == added;
  }

  /** One frontend ClientDisconnected event per deleted entity, in order. */
  function Departures(gone: seq<Entity>): (r: seq<Event>)
    ensures |r| == |gone|
    ensures forall i :: 0 <= i < |r| ==> r[i] == ClientDisconnected(gone[i])
    decreases |gone|
  {
    if gone == [] then []
    else Departures(gone[..|gone| - 1]) + [ClientDisconnected(gone[|gone| - 1])]
  }

  // ---------------------------------------------------------------------------
  // One round of `handle_new_messages`

  /** The running result of visiting the clients: sessions left, components, messages sent, and what was queued. */
  datatype Round = Round(sessions: map<Entity, Session>, comps: Storages, sent: seq<Envelope>,
                         chats: seq<ChatLine>, requested: seq<ChunkKey>, gone: seq<Entity>)

  /** Client `e`'s turn, when it still has a session: a disconnecting session is removed and remembered in `gone`. */
  function Turn(cfg: Config, es: seq<Entity>, terrain: map<ChunkKey, Chunk>, now: real, e: Entity, r: Round): (r': Round)
    requires forall x :: x in r.gone ==> x !in r.sessions
    ensures r'.sessions.Keys <= r.sessions.Keys
    ensures forall x :: x in r'.gone ==> x !in r'.sessions
    ensures forall x :: x != e && x in r.sessions ==> x in r'.sessions && r'.sessions[x] == r.sessions[x]
    ensures e !in r.gone ==> (e in r'.gone <==> e in r.sessions && e !in r'.sessions)
    ensures forall x :: x != e ==> (x in r'.gone <==> x in r.gone)
  {
    if e !in r.sessions then r
    else
      var o := ProcessSession(cfg, es, terrain, now, e, r.sessions[e], r.comps);
      Round(if o.disconnect then r.sessions - {e} else r.sessions[e := o.session],
            o.comps, r.sent + Addressed(e, o.sent), r.chats + o.chats, r.requested + o.requested,
            r.gone + (if o.disconnect then [e] else []))
  }

  /** Every client of `clients` takes its turn in order. */
  function ProcessRound(cfg: Config, es: seq<Entity>, terrain: map<ChunkKey, Chunk>, now: real,
                        clients: seq<Entity>, r0: Round): (r: Round)
    requires forall x :: x in r0.gone ==> x !in r0.sessions
    ensures r.sessions.Keys <= r0.sessions.Keys
    ensures forall x :: x in r.gone ==> x !in r.sessions
    ensures forall x :: x in r0.sessions && x !in clients ==> x in r.sessions && r.sessions[x] == r0.sessions[x]
    decreases |clients|
  {
    if clients == [] then r0
    else
      Turn(cfg, es, terrain, now, clients[|clients| - 1], ProcessRound(cfg, es, terrain, now, clients[..|clients| - 1], r0))
  }

  lemma ProcessRoundStep(cfg: Config, es: seq<Entity>, terrain: map<ChunkKey, Chunk>, now: real,
                         clients: seq<Entity>, i: nat, r0: Round)
    requires i < |clients| && forall x :: x in r0.gone ==> x !in r0.sessions
    ensures ProcessRound(cfg, es, terrain, now, clients[..i + 1], r0)
         == Turn(cfg, es, terrain, now, clients[i], ProcessRound(cfg, es, terrain, now, clients[..i], r0))
  {
    assert clients[..i + 1][..i] == clients[..i];
  }

  /** Over distinct clients, a session survives the round exactly when its own turn did not disconnect it, and then it holds what its turn left. */
  lemma {:induction false} RoundKeepsOrDrops(cfg: Config, es: seq<Entity>, terrain: map<ChunkKey, Chunk>, now: real,
                                             clients: seq<Entity>, r0: Round, x: Entity)
    requires Distinct(clients) && x in clients && x in r0.sessions && r0.gone == []
    ensures var r := ProcessRound(cfg, es, terrain, now, clients, r0);
      x in r.sessions <==> x !in r.gone
    decreases |clients|
  {
    var pre := clients[..|clients| - 1];
    var e := clients[|clients| - 1];
    DistinctPrefix(clients);
    var r := ProcessRound(cfg, es, terrain, now, pre, r0);
    if x == e {
      assert x in r.sessions && x !in r.gone by {
        GoneWereVisited(cfg, es, terrain, now, pre, r0, x);
      }
    } else {
      assert x in pre;
      RoundKeepsOrDrops(cfg, es, terrain, now, pre, r0, x);
    }
  }

  /** Only visited clients end up in `gone`. */
  lemma {:induction false} GoneWereVisited(cfg: Config, es: seq<Entity>, terrain: map<ChunkKey, Chunk>, now: real,
                                           clients: seq<Entity>, r0: Round, x: Entity)
    requires r0.gone == [] && x !in clients
    ensures x !in ProcessRound(cfg, es, terrain, now, clients, r0).gone
    decreases |clients|
  {
    if clients != [] {
      GoneWereVisited(cfg, es, terrain, now, clients[..|clients| - 1], r0, x);
    }
  }

  // ---------------------------------------------------------------------------
  // Chunk bookkeeping

  function FinishedKeys(done: seq<Finished>): (r: seq<ChunkKey>)
    ensures |r| == |done| && forall i :: 0 <= i < |r| ==> r[i] == done[i].key
  {
    seq(|done|, i requires 0 <= i < |done| => done[i].key)
  }

  /** Every pending key has exactly one running job or one finished chunk waiting. */
  ghost predicate ChunksValid(pending: set<ChunkKey>, jobs: set<ChunkKey>, done: seq<Finished>) {
    var keys := FinishedKeys(done);
    && (forall i, j :: 0 <= i < j < |keys| ==> keys[i] != keys[j])
    && (forall k :: k in jobs ==> k !in keys)
    && (forall k :: k in pending <==> k in jobs || k in keys)
  }

  /** The largest per-axis distance between two chunk keys. */
  function Chebyshev(a: ChunkKey, b: ChunkKey): (r: nat)
    ensures r >= a.x - b.x && r >= b.x - a.x && r >= a.y - b.y && r >= b.y - a.y
    ensures r == a.x - b.x || r == b.x - a.x || r == a.y - b.y || r == b.y - a.y
  {
    var dx := if a.x >= b.x then a.x - b.x else b.x - a.x;
    var dy := if a.y >= b.y then a.y - b.y else b.y - a.y;
    if dx >= dy then dx else dy
  }

  /** A player with a position and a view distance that reaches the chunk `key`. */
  predicate Sees(c: Storages, posKey: Vec3 -> ChunkKey, e: Entity, key: ChunkKey) {
    && e in c.players && e in c.pos && c.players[e].viewDistance.Some?
    && Chebyshev(posKey(c.pos[e]), key) <= c.players[e].viewDistance.value
  }

  /** A loaded chunk survives eviction exactly when some alive player sees it. */
  ghost predicate KeptAlive(es: seq<Entity>, c: Storages, posKey: Vec3 -> ChunkKey, key: ChunkKey) {
    exists e :: e in es && Sees(c, posKey, e, key)
  }

  /** Who receives a drained chunk: the clients whose player sees it. */
  function ChunkAudience(c: Storages, posKey: Vec3 -> ChunkKey, sessions: map<Entity, Session>, key: ChunkKey): set<Entity> {
    set x | x in sessions && Sees(c, posKey, x, key)
  }

  /** A player without a view distance, or without a position, keeps no chunk alive. */
  lemma NoViewKeepsNothing(es: seq<Entity>, c: Storages, posKey: Vec3 -> ChunkKey, key: ChunkKey)
    requires forall e :: e in es && e in c.players && e in c.pos ==> c.players[e].viewDistance.None?
    ensures !KeptAlive(es, c, posKey, key)
  {
  }

  // ---------------------------------------------------------------------------
  // Replication

  /** `in_vd`: the client has a position and a view distance, and `at` is inside its view box. */
  predicate InViewOf(c: Storages, size: ChunkSize, client: Entity, at: Vec3) {
    && client in c.pos && client in c.players && c.players[client].viewDistance.Some?
    && InBox(at.Minus(c.pos[client]), c.players[client].viewDistance.value, size)
  }

  /** Who receives the physics of `e`: in-game clients that see it, its own client only when it is force-updated. */
  function PhysicsAudience(c: Storages, size: ChunkSize, sessions: map<Entity, Session>, e: Entity): set<Entity>
    requires e in c.pos
  {
    set x | x in sessions && InGame(sessions[x].state) && (e in c.forceUpdate || x != e)
                           && InViewOf(c, size, x, c.pos[e])
  }

  /** Who receives the animation of `e`: every in-game client, its own one only when it is force-updated. */
  function AnimationAudience(c: Storages, sessions: map<Entity, Session>, e: Entity): set<Entity> {
    set x | x in sessions && InGame(sessions[x].state) && (e in c.forceUpdate || x != e)
  }

  /** The physics sync of `sync_clients` over the entities `es`. */
  function PhysicsUpdates(es: seq<Entity>, c: Storages, size: ChunkSize, order: seq<Entity>,
                          sessions: map<Entity, Session>): seq<Envelope>
    decreases |es|
  {
    if es == [] then []
    else
      var e := es[|es| - 1];
      PhysicsUpdates(es[..|es| - 1], c, size, order, sessions)
      + (if e in c.uids && e in c.pos && e in c.vel && e in c.ori
         then Fanout(order, PhysicsAudience(c, size, sessions, e),
                     EntityPhysics(c.uids[e], c.pos[e], c.vel[e], c.ori[e]))
         else [])
  }

  /** The animation sync of `sync_clients`: only changed or force-updated animations are sent. */
  function AnimationUpdates(es: seq<Entity>, c: Storages, order: seq<Entity>,
                            sessions: map<Entity, Session>): seq<Envelope>
    decreases |es|
  {
    if es == [] then []
    else
      var e := es[|es| - 1];
      AnimationUpdates(es[..|es| - 1], c, order, sessions)
      + (if e in c.uids && e in c.animations && (c.animations[e].changed || e in c.forceUpdate)
         then Fanout(order, AnimationAudience(c, sessions, e), EntityAnimation(c.uids[e], c.animations[e]))
         else [])
  }

  /** The replication filter: a client receives an entity's physics exactly when it is in game, sees the entity, and is not that entity's own client unless it is force-updated. */
  lemma PhysicsFilter(c: Storages, size: ChunkSize, order: seq<Entity>, sessions: map<Entity, Session>, e: Entity, x: Entity)
    requires e in c.uids && e in c.pos && e in c.vel && e in c.ori
    ensures var msg := EntityPhysics(c.uids[e], c.pos[e], c.vel[e], c.ori[e]);
      Envelope(x, msg) in Fanout(order, PhysicsAudience(c, size, sessions, e), msg)
      <==> && x in order && x in sessions && InGame(sessions[x].state)
           && (e in c.forceUpdate || x != e)
           && x in c.pos && x in c.players && c.players[x].viewDistance.Some?
           && InBox(c.pos[e].Minus(c.pos[x]), c.players[x].viewDistance.value, size)
  {
  }

  // ---------------------------------------------------------------------------
  // Deaths and respawns

  /** The entity carrying Uid `u`, searching the alive entities in order. */
  function EntityFromUid(es: seq<Entity>, uids: map<Entity, Uid>, u: Uid): (r: Option<Entity>)
    ensures r.Some? ==> r.value in es && r.value in uids && uids[r.value] == u
    ensures r.None? ==> forall x :: x in es && x in uids ==> uids[x] != u
    decreases |es|
  {
    if es == [] then None
    else if es[0] in uids && uids[es[0]] == u then Some(es[0])
    else EntityFromUid(es[1..], uids, u)
  }

  /** The chat line announcing the death of player `e`. */
  function DeathNotice(es: seq<Entity>, c: Storages, e: Entity): string
    requires e in c.players && e in c.dying
  {
    var alias := c.players[e].alias;
    match c.dying[e]
    case Attack(attacker) =>
      (match EntityFromUid(es, c.uids, attacker)
       case Some(a) => if a in c.players then alias + " was killed by " + c.players[a].alias else alias + " died"
       case None => alias + " died")
    case OtherSource => alias + " died"
  }

  /** The entities with Dying, in entity order: the ones `tick` kills. */
  function Dying(es: seq<Entity>, c: Storages): (r: seq<Entity>)
    decreases |es|
  {
    if es == [] then []
    else
      var x := es[|es| - 1];
      Dying(es[..|es| - 1], c) + (if x in c.dying then [x] else [])
  }

  /** `Dying` lists exactly the alive entities with Dying, each once. */
  lemma {:induction false} DyingMeaning(es: seq<Entity>, c: Storages)
    ensures forall x :: x in Dying(es, c) <==> x in es && x in c.dying
    ensures Distinct(es) ==> Distinct(Dying(es, c))
    decreases |es|
  {
    if es != [] {
      var x := es[|es| - 1];
      var pre := es[..|es| - 1];
      assert forall y :: y in es <==> y in pre || y == x;
      DyingMeaning(pre, c);
      if Distinct(es) {
        DistinctPrefix(es);
        var r := Dying(es, c);
        forall i, j | 0 <= i < j < |r| ensures r[i] != r[j] {
          if j >= |Dying(pre, c)| {
            assert r[j] == x;
            assert r[i] in Dying(pre, c);
          } else {
            assert r[i] == Dying(pre, c)[i] && r[j] == Dying(pre, c)[j];
          }
        }
      }
    }
  }

  /** The death notices for the dying entities `ds`, each to every registered client. */
  function DeathNotices(es: seq<Entity>, c: Storages, ds: seq<Entity>, order: seq<Entity>,
                        sessions: map<Entity, Session>): seq<Envelope>
    decreases |ds|
  {
    if ds == [] then []
    else
      var e := ds[|ds| - 1];
      DeathNotices(es, c, ds[..|ds| - 1], order, sessions)
      + (if e in c.players && e in c.dying then Fanout(order, RegisteredClients(sessions), ServerMsg.Chat(DeathNotice(es, c, e))) else [])
  }

  lemma DyingStep(es: seq<Entity>, i: nat, c: Storages)
    requires i < |es|
    ensures Dying(es[..i + 1], c) == Dying(es[..i], c) + (if es[i] in c.dying then [es[i]] else [])
  {
    assert es[..i + 1][..i] == es[..i];
  }

  lemma DeathNoticesStep(es: seq<Entity>, c: Storages, ds: seq<Entity>, e: Entity, order: seq<Entity>,
                         sessions: map<Entity, Session>)
    requires e in c.dying
    ensures DeathNotices(es, c, ds + [e], order, sessions)
         == DeathNotices(es, c, ds, order, sessions)
            + (if e in c.players then Fanout(order, RegisteredClients(sessions), ServerMsg.Chat(DeathNotice(es, c, e))) else [])
  {
    assert (ds + [e])[..|ds|] == ds;
  }

  /** The part of the server state that killing and respawning change. */
  datatype Pass = Pass(entities: seq<Entity>, comps: Storages, sessions: map<Entity, Session>, sent: seq<Envelope>)

  /** Killing one dying entity: a client's character stops, is force-updated and its session is forced to Dead; anything else is deleted. */
  function Kill(p: Pass, e: Entity): Pass {
    if e in p.sessions then
      Pass(p.entities,
           p.comps.(vel := p.comps.vel[e := ZERO], forceUpdate := p.comps.forceUpdate + {e}),
           p.sessions[e := p.sessions[e].(state := Dead)],
           p.sent + [Envelope(e, ForceState(Dead))])
    else Pass(Without(p.entities, e), p.comps.Forget(e), p.sessions, p.sent)
  }

  function KillAll(p: Pass, ds: seq<Entity>): (r: Pass)
    ensures r.sessions.Keys == p.sessions.Keys
    ensures forall x :: x in p.sessions && x !in ds ==> r.sessions[x] == p.sessions[x]
    ensures forall x :: x in r.entities ==> x in p.entities
    decreases |ds|
  {
    if ds == [] then p
    else Kill(KillAll(p, ds[..|ds| - 1]), ds[|ds| - 1])
  }

  lemma KillAllStep(p: Pass, ds: seq<Entity>, i: nat)
    requires i < |ds|
    ensures KillAll(p, ds[..i + 1]) == Kill(KillAll(p, ds[..i]), ds[i])
  {
    assert ds[..i + 1][..i] == ds[..i];
  }

  /** After the kill loop every dying client is Dead and every other dying entity is gone; sessions of others are untouched. */
  lemma {:induction false} KillAllOutcome(p: Pass, ds: seq<Entity>, x: Entity)
    requires x in ds
    ensures var r := KillAll(p, ds);
      && (x in p.sessions ==> r.sessions[x].state == Dead && x in r.comps.forceUpdate && x in r.comps.vel && r.comps.vel[x] == ZERO)
      && (x !in p.sessions ==> x !in r.entities)
    decreases |ds|
  {
    var pre := ds[..|ds| - 1];
    var e := ds[|ds| - 1];
    var q := KillAll(p, pre);
    if x == e {
    } else {
      assert x in pre;
      KillAllOutcome(p, pre, x);
      if x in p.sessions {
        assert x in q.comps.vel;
      }
    }
  }

  /** The kill loop keeps every client's entity alive and never adds a Respawning marker; a client keeps its own. */
  lemma {:induction false} KillAllKeeps(p: Pass, ds: seq<Entity>, x: Entity)
    requires x in p.sessions
    ensures var r := KillAll(p, ds);
      && (x in p.entities ==> x in r.entities)
      && (x in r.comps.respawning <==> x in p.comps.respawning)
      && (forall y :: y in r.comps.respawning ==> y in p.comps.respawning)
    decreases |ds|
  {
    if ds != [] {
      var q := KillAll(p, ds[..|ds| - 1]);
      var e := ds[|ds| - 1];
      KillAllKeeps(p, ds[..|ds| - 1], x);
      assert x in q.sessions;
      if e in q.sessions {
        assert Kill(q, e).comps.respawning == q.comps.respawning;
      } else {
        assert Kill(q, e).comps.respawning == q.comps.respawning - {e};
        assert x in q.entities ==> x in Without(q.entities, e);
      }
    }
  }

  /** Respawning one entity: a client is allowed back into Character with fresh stats, lifted by 100, stopped and force-updated. */
  function Respawned(cfg: Config, p: Pass, e: Entity): Pass {
    if e in p.sessions then
      var c := p.comps;
      Pass(p.entities,
           c.(stats := c.stats[e := cfg.defaultStats],
              pos := if e in c.pos then c.pos[e := c.pos[e].(z := c.pos[e].z + 100.0)] else c.pos,
              vel := c.vel[e := ZERO],
              forceUpdate := c.forceUpdate + {e}),
           p.sessions[e := p.sessions[e].(state := ClientState.Character)],
           p.sent + [Envelope(e, StateAnswerOk(ClientState.Character))])
    else p
  }

  /** The entities with Respawning, in entity order. */
  function Respawning(es: seq<Entity>, c: Storages): (r: seq<Entity>)
    decreases |es|
  {
    if es == [] then []
    else
      var x := es[|es| - 1];
      Respawning(es[..|es| - 1], c) + (if x in c.respawning then [x] else [])
  }

  /** `Respawning` lists exactly the alive entities with Respawning. */
  lemma {:induction false} RespawningMeaning(es: seq<Entity>, c: Storages)
    ensures forall x :: x in Respawning(es, c) <==> x in es && x in c.respawning
    decreases |es|
  {
    if es != [] {
      var x := es[|es| - 1];
      assert forall y :: y in es <==> y in es[..|es| - 1] || y == x;
      RespawningMeaning(es[..|es| - 1], c);
    }
  }

  lemma RespawningStep(es: seq<Entity>, i: nat, c: Storages)
    requires i < |es|
    ensures Respawning(es[..i + 1], c) == Respawning(es[..i], c) + (if es[i] in c.respawning then [es[i]] else [])
  {
    assert es[..i + 1][..i] == es[..i];
  }

  function RespawnAll(cfg: Config, p: Pass, rs: seq<Entity>): (r: Pass)
    ensures r.entities == p.entities && r.sessions.Keys == p.sessions.Keys
    ensures forall x :: x in p.sessions && x !in rs ==> r.sessions[x] == p.sessions[x]
    ensures forall x :: x in rs && x in p.sessions ==> r.sessions[x].state == ClientState.Character
    decreases |rs|
  {
    if rs == [] then p
    else Respawned(cfg, RespawnAll(cfg, p, rs[..|rs| - 1]), rs[|rs| - 1])
  }

  lemma RespawnAllStep(cfg: Config, p: Pass, rs: seq<Entity>, i: nat)
    requires i < |rs|
    ensures RespawnAll(cfg, p, rs[..i + 1]) == Respawned(cfg, RespawnAll(cfg, p, rs[..i]), rs[i])
  {
    assert rs[..i + 1][..i] == rs[..i];
  }

  /** The world after deleting the entities `gone` one after the other. */
  function DeleteAll(es: seq<Entity>, c: Storages, gone: seq<Entity>): (r: (seq<Entity>, Storages))
    ensures forall x :: x in r.0 <==> x in es && x !in gone
    decreases |gone|
  {
    if gone == [] then (es, c)
    else
      var (es', c') := DeleteAll(es, c, gone[..|gone| - 1]);
      assert forall y :: y in gone <==> y in gone[..|gone| - 1] || y == gone[|gone| - 1];
      (Without(es', gone[|gone| - 1]), c'.Forget(gone[|gone| - 1]))
  }

  // ---------------------------------------------------------------------------
  // The server

  class Server {
    const world: World
    const cfg: Config
    /** The keywords of the chat commands the server knows. */
    const commands: set<string>
    /** `terrain().pos_key`: the chunk holding a position. */
    const posKey: Vec3 -> ChunkKey
    const chunkSize: ChunkSize
    var time: real
    var sessions: map<Entity, Session>
    var order: seq<Entity>
    var outbox: seq<Envelope>
    var pending: set<ChunkKey>
    var jobs: set<ChunkKey>
    var done: seq<Finished>
    var terrain: map<ChunkKey, Chunk>
    var commandLog: seq<Invocation>

    /** Every client is listed once in `order` and owns an alive entity, and the chunk books balance. */
    ghost predicate Valid()
      reads this`sessions, this`order, this`pending, this`jobs, this`done, world`entities, world`nextEntity
    {
      && world.Valid()
      && Distinct(order) && (forall e :: e in order <==> e in sessions)
      && (forall e :: e in sessions ==> e in world.entities)
      && ChunksValid(pending, jobs, done)
    }

    constructor (cfg: Config, commands: set<string>, posKey: Vec3 -> ChunkKey, chunkSize: ChunkSize)
      ensures Valid() && fresh(world)
      ensures this.cfg == cfg && this.commands == commands && this.posKey == posKey && this.chunkSize == chunkSize
      ensures world.entities == [] && world.comps == EMPTY_STORAGES
      ensures time == 0.0 && sessions == map[] && order == [] && outbox == []
      ensures pending == {} && jobs == {} && done == [] && terrain == map[] && commandLog == []
    {
      world := new World();
      this.cfg, this.commands, this.posKey, this.chunkSize := cfg, commands, posKey, chunkSize;
      time, sessions, order, outbox := 0.0, map[], [], [];
      pending, jobs, done, terrain, commandLog := {}, {}, [], map[], [];
    }

    // --- the network and the workers, as seen by the server

    /** Messages arrive in a client's postbox, which may also fail. */
    method Deliver(e: Entity, msgs: seq<ClientMsg>, failed: bool)
      requires e in sessions
      modifies this`sessions
      ensures sessions == old(sessions)[e := old(sessions)[e].(inbox := old(sessions)[e].inbox + msgs,
                                                               postboxError := old(sessions)[e].postboxError || failed)]
    {
      var ss := sessions[e];
      sessions := sessions[e := ss.(inbox := ss.inbox + msgs, postboxError := ss.postboxError || failed)];
    }

    /** A worker finishes the job for `key` and sends its chunk back. */
    method CompleteJob(key: ChunkKey, chunk: Chunk)
      requires Valid() && key in jobs
      modifies this`jobs, this`done
      ensures Valid()
      ensures jobs == old(jobs) - {key} && done == old(done) + [Finished(key, chunk)]
    {
      jobs := jobs - {key};
      done := done + [Finished(key, chunk)];
      assert FinishedKeys(done) == FinishedKeys(old(done)) + [key];
    }

    // --- sending

    /** `notify`: a message for `e` if it is a client. */
    method Notify(e: Entity, msg: ServerMsg)
      modifies this`outbox
      ensures outbox == old(outbox) + (if e in sessions then [Envelope(e, msg)] else [])
    {
      if e in sessions {
        outbox := outbox + [Envelope(e, msg)];
      }
    }

    /** Visiting `es` in order, a copy of `msg` for each one in `to`. */
    method NotifyAll(es: seq<Entity>, to: set<Entity>, msg: ServerMsg)
      modifies this`outbox
      ensures outbox == old(outbox) + Fanout(es, to, msg)
    {
      var i := 0;
      while i < |es|
        invariant 0 <= i <= |es|
        invariant outbox == old(outbox) + Fanout(es[..i], to, msg)
      {
        if es[i] in to {
          AppendAssoc(old(outbox), Fanout(es[..i], to, msg), [Envelope(es[i], msg)]);
          outbox := outbox + [Envelope(es[i], msg)];
        }
        assert es[..i + 1][..i] == es[..i];
        i := i + 1;
      }
      assert es[..i] == es;
    }

    // --- connections

    /** One new postbox: a fresh entity, a Connected session and the initial sync. */
    method Connect() returns (e: Entity)
      requires Valid()
      modifies this`sessions, this`order, this`outbox, world
      ensures Valid()
      ensures e !in old(world.entities) && world.entities == old(world.entities) + [e]
      ensures world.comps == old(world.comps).(uids := old(world.comps).uids[e := old(world.nextUid)])
      ensures world.nextUid == old(world.nextUid) + 1
      ensures sessions == old(sessions)[e := Session(Connected, time, [], false)]
      ensures order == old(order) + [e]
      ensures outbox == old(outbox) + [Envelope(e, InitialSync(old(world.nextUid)))]
    {
      e := world.CreateEntitySynced();
      outbox := outbox + [Envelope(e, InitialSync(world.comps.uids[e]))];
      sessions := sessions[e := Session(Connected, time, [], false)];
      order := order + [e];
    }

    /** `handle_new_connections`: `n` new postboxes become Connected sessions, each reported to the frontend. */
    method HandleNewConnections(n: nat) returns (events: seq<Event>)
      requires Valid()
      modifies this`sessions, this`order, this`outbox, world
      ensures Valid()
      ensures |world.entities| == |old(world.entities)| + n
      ensures world.entities[..|old(world.entities)|] == old(world.entities)
      ensures Joined(old(world.entities), old(order), old(sessions), old(world.comps), old(world.nextUid), time,
                     world.entities[|old(world.entities)|..],
                     world.entities, order, sessions, world.comps, world.nextUid, events)
    {
      ghost var es0, ss0, ord0, c0, uid0 := world.entities, sessions, order, world.comps, world.nextUid;
      ghost var added: seq<Entity> := [];
      events := [];
      var i := 0;
      while i < n
        invariant 0 <= i <= n && Valid() && |added| == i
        invariant Joined(es0, ord0, ss0, c0, uid0, time, added, world.entities, order, sessions, world.comps, world.nextUid, events)
      {
        ghost var es, ord, ss, c, next := world.entities, order, sessions, world.comps, world.nextUid;
        var e := Connect();
        JoinedStep(es0, ord0, ss0, c0, uid0, time, added, es, ord, ss, c, next, events, e);
        added := added + [e];
        events := events + [ClientConnected(e)];
        i := i + 1;
      }
      assert world.entities[|es0|..] == added;
    }

    // --- messages

    /** The physics sync of `initialize_player`, entity by entity. */
    method PhysicsSnapshot() returns (msgs: seq<ServerMsg>)
      ensures msgs == PhysicsSync(world.entities, world.comps)
    {
      var es, c := world.entities, world.comps;
      msgs := [];
      var i := 0;
      while i < |es|
        invariant 0 <= i <= |es|
        invariant msgs == PhysicsSync(es[..i], c)
      {
        var e := es[i];
        if e in c.uids && e in c.pos && e in c.vel && e in c.ori {
          msgs := msgs + [EntityPhysics(c.uids[e], c.pos[e], c.vel[e], c.ori[e])];
        }
        assert es[..i + 1][..i] == es[..i];
        i := i + 1;
      }
      assert es[..i] == es;
    }

    /** The animation sync of `initialize_player`, entity by entity. */
    method AnimationSnapshot() returns (msgs: seq<ServerMsg>)
      ensures msgs == AnimationSync(world.entities, world.comps)
    {
      var es, c := world.entities, world.comps;
      msgs := [];
      var i := 0;
      while i < |es|
        invariant 0 <= i <= |es|
        invariant msgs == AnimationSync(es[..i], c)
      {
        var e := es[i];
        if e in c.uids && e in c.animations {
          msgs := msgs + [EntityAnimation(c.uids[e], c.animations[e])];
        }
        assert es[..i + 1][..i] == es[..i];
        i := i + 1;
      }
      assert es[..i] == es;
    }

    /** One message of a client's batch, applied to the world. */
    method HandleMessage(e: Entity, s: Step, msg: ClientMsg) returns (s': Step)
      modifies world`comps
      ensures Effect(s', world.comps) == HandleMsg(cfg, world.entities, terrain, e, old(world.comps), s, msg)
    {
      var c := world.comps;
      s' := s;
      match msg {
        case RequestState(requested) =>
          match requested {
            case Connected =>
              s' := s.(disconnect := true);
            case Registered =>
              match s.state {
                case Connected => s' := Refuse(s, WrongMessage);
                case Registered => s' := Refuse(s, Already);
                case Spectator | Character | Dead => s' := Allow(s, Registered);
                case Pending =>
              }
            case Spectator =>
              match requested {
                case Connected => s' := Refuse(s, Impossible);
                case Spectator => s' := Refuse(s, Already);
                case Registered | Character | Dead => s' := Allow(s, Spectator);
                case Pending =>
              }
            case Character =>
              s' := Refuse(s, WrongMessage);
            case Dead =>
              s' := Refuse(s, Impossible);
            case Pending =>
          }
        case Register(player) =>
          if s.state == Connected {
            world.comps := c.(players := c.players[e := player]);
            var physics := PhysicsSnapshot();
            var animations := AnimationSnapshot();
            s' := Allow(s.(sent := s.sent + physics + animations), Registered);
            s' := s'.(chats := s'.chats + [ChatLine(None, player.alias + " logged in")]);
          } else {
            s' := Refuse(s, Impossible);
          }
        case SetViewDistance(vd) =>
          if s.state == ClientState.Character && e in c.players {
            world.comps := c.(players := c.players[e := c.players[e].(viewDistance := Some(vd))]);
          }
        case Character(name, body) =>
          if s.state == Connected {
            s' := Refuse(s, Impossible);
          } else if s.state == ClientState.Character {
            s' := Refuse(s, Already);
          } else if s.state != Pending {
            CreatePlayerCharacter(e, name, body);
            s' := Allow(s, ClientState.Character);
          }
        case Attack =>
          if s.state != ClientState.Character {
            s' := Refuse(s, Impossible);
          } else if e !in c.attacking {
            world.comps := c.(attacking := c.attacking[e := ATTACK_START]);
          }
        case Respawn =>
          if s.state == Dead {
            world.comps := c.(respawning := c.respawning + {e});
          } else {
            s' := Refuse(s, Impossible);
          }
        case Chat(text) =>
          if s.state == Connected {
            s' := Refuse(s, Impossible);
          } else if s.state != Pending && |text| <= cfg.maxMsgLen {
            s' := s.(chats := s.chats + [ChatLine(Some(e), text)]);
          }
        case PlayerAnimation(info) =>
          if s.state == ClientState.Character {
            world.comps := c.(animations := c.animations[e := info]);
          } else {
            s' := Refuse(s, Impossible);
          }
        case PlayerPhysics(pos, vel, ori) =>
          if s.state == ClientState.Character {
            world.comps := c.(pos := c.pos[e := pos], vel := c.vel[e := vel], ori := c.ori[e := ori]);
          } else {
            s' := Refuse(s, Impossible);
          }
        case TerrainChunkRequest(key) =>
          if s.state == Connected || s.state == Registered || s.state == Dead {
            s' := Refuse(s, Impossible);
          } else if s.state != Pending {
            if key in terrain {
              s' := s.(sent := s.sent + [TerrainChunkUpdate(key, terrain[key])]);
            } else {
              s' := s.(requested := s.requested + [key]);
            }
          }
        case Ping =>
          s' := s.(sent := s.sent + [ServerMsg.Pong]);
        case Pong =>
        case Disconnect =>
          s' := s.(disconnect := true);
      }
    }

    /** `create_player_character`'s writes: actor, default stats and animation, spawn point, no velocity, facing +y, force-updated. */
    method CreatePlayerCharacter(e: Entity, name: string, body: Body)
      modifies world`comps
      ensures world.comps == old(world.comps).(
        actors := old(world.comps).actors[e := Actor.Character(name, body)],
        stats := old(world.comps).stats[e := cfg.defaultStats],
        animations := old(world.comps).animations[e := cfg.defaultAnimation],
        pos := old(world.comps).pos[e := SPAWN_POINT],
        vel := old(world.comps).vel[e := ZERO],
        ori := old(world.comps).ori[e := UNIT_Y],
        forceUpdate := old(world.comps).forceUpdate + {e})
    {
      world.comps := world.comps.(actors := world.comps.actors[e := Actor.Character(name, body)]);
      world.comps := world.comps.(stats := world.comps.stats[e := cfg.defaultStats]);
      world.comps := world.comps.(animations := world.comps.animations[e := cfg.defaultAnimation]);
      world.comps := world.comps.(pos := world.comps.pos[e := SPAWN_POINT]);
      world.comps := world.comps.(vel := world.comps.vel[e := ZERO]);
      world.comps := world.comps.(ori := world.comps.ori[e := UNIT_Y]);
      world.comps := world.comps.(forceUpdate := world.comps.forceUpdate + {e});
    }

    /** One client's turn in `handle_new_messages`: its batch, or the keep-alive rule when it sent nothing. */
    method ProcessClient(e: Entity) returns (o: Outcome)
      requires e in sessions
      modifies world`comps
      ensures o == ProcessSession(cfg, world.entities, terrain, time, e, sessions[e], old(world.comps))
      ensures world.comps == o.comps
    {
      var ss := sessions[e];
      var start := Step(ss.state, [], false, [], []);
      if |ss.inbox| > 0 {
        var st := start;
        var i := 0;
        while i < |ss.inbox|
          invariant 0 <= i <= |ss.inbox|
          invariant Effect(st, world.comps) == HandleBatch(cfg, world.entities, terrain, e, old(world.comps), start, ss.inbox[..i])
        {
          st := HandleMessage(e, st, ss.inbox[i]);
          assert ss.inbox[..i + 1][..i] == ss.inbox[..i];
          i := i + 1;
        }
        assert ss.inbox[..i] == ss.inbox;
        o := Finish(e, ss.(lastPing := time, inbox := []), world.comps, st);
      } else if time - ss.lastPing > CLIENT_TIMEOUT || ss.postboxError {
        o := Finish(e, ss, world.comps, start.(disconnect := true));
      } else if time - ss.lastPing > PING_AFTER {
        o := Finish(e, ss, world.comps, start.(sent := [ServerMsg.Ping]));
      } else {
        o := Finish(e, ss, world.comps, start);
      }
    }

    /** The body of the `remove_if` pass for client `e`: its turn, and what it adds to the round's lists. */
    method TakeTurn(e: Entity, chats: seq<ChatLine>, requested: seq<ChunkKey>, gone: seq<Entity>, ghost sent: seq<Envelope>)
      returns (chats': seq<ChatLine>, requested': seq<ChunkKey>, gone': seq<Entity>, added: seq<Envelope>)
      requires forall x :: x in gone ==> x !in sessions
      modifies this`sessions, this`outbox, world`comps
      ensures Round(sessions, world.comps, sent + added, chats', requested', gone')
           == Turn(cfg, world.entities, terrain, time, e, Round(old(sessions), old(world.comps), sent, chats, requested, gone))
      ensures outbox == old(outbox) + added
    {
      chats', requested', gone', added := chats, requested, gone, [];
      if e in sessions {
        var o := ProcessClient(e);
        added := Addressed(e, o.sent);
        outbox := outbox + added;
        chats' := chats + o.chats;
        requested' := requested + o.requested;
        if o.disconnect {
          sessions := sessions - {e};
          gone' := gone + [e];
        } else {
          sessions := sessions[e := o.session];
        }
      }
    }

    /** Every client of `clients` takes its turn, in that order. */
    method RunRound(clients: seq<Entity>) returns (chats: seq<ChatLine>, requested: seq<ChunkKey>, gone: seq<Entity>)
      modifies this`sessions, this`outbox, world`comps
      ensures var r := ProcessRound(cfg, world.entities, terrain, time, clients,
                                    Round(old(sessions), old(world.comps), [], [], [], []));
        && sessions == r.sessions && world.comps == r.comps && outbox == old(outbox) + r.sent
        && chats == r.chats && requested == r.requested && gone == r.gone
    {
      ghost var r0 := Round(sessions, world.comps, [], [], [], []);
      ghost var sent: seq<Envelope> := [];
      chats, requested, gone := [], [], [];
      var i := 0;
      while i < |clients|
        invariant 0 <= i <= |clients|
        invariant Round(sessions, world.comps, sent, chats, requested, gone)
               == ProcessRound(cfg, world.entities, terrain, time, clients[..i], r0)
        invariant outbox == old(outbox) + sent
      {
        var added;
        chats, requested, gone, added := TakeTurn(clients[i], chats, requested, gone, sent);
        AppendAssoc(old(outbox), sent, added);
        sent := sent + added;
        ProcessRoundStep(cfg, world.entities, terrain, time, clients, i, r0);
        i := i + 1;
      }
      assert clients[..i] == clients;
    }

    /** The `remove_if` pass of `handle_new_messages`: every client takes its turn, and disconnected ones are removed. */
    method ProcessClients() returns (chats: seq<ChatLine>, requested: seq<ChunkKey>, gone: seq<Entity>)
      requires Valid()
      modifies this`sessions, this`order, this`outbox, world`comps
      ensures Valid()
      ensures var r := ProcessRound(cfg, world.entities, terrain, time, old(order),
                                    Round(old(sessions), old(world.comps), [], [], [], []));
        && sessions == r.sessions && world.comps == r.comps && outbox == old(outbox) + r.sent
        && chats == r.chats && requested == r.requested && gone == r.gone
        && order == Keep(old(order), r.sessions.Keys)
    {
      chats, requested, gone := RunRound(order);
      order := Keep(order, sessions.Keys);
    }

    // --- chat

    /** `process_chat_cmd`: a known keyword runs its command, anything else is answered to the sender. */
    method ProcessChatCmd(e: Entity, cmd: string)
      modifies this`outbox, this`commandLog
      ensures var (kwd, args) := SplitCommand(cmd);
        && (kwd in commands ==> outbox == old(outbox) && commandLog == old(commandLog) + [Invocation(e, kwd, args)])
        && (kwd !in commands ==>
              && commandLog == old(commandLog)
              && outbox == old(outbox) + (if e in sessions then [Envelope(e, ServerMsg.Chat(Unrecognised(kwd)))] else []))
    {
      var kwd, args;
      match FindSpace(cmd) {
        case Some(i) => kwd, args := cmd[..i], cmd[i + 1..];
        case None => kwd, args := cmd, "";
      }
      if kwd in commands {
        commandLog := commandLog + [Invocation(e, kwd, args)];
      } else {
        Notify(e, ServerMsg.Chat(Unrecognised(kwd)));
      }
    }

    /** One queued chat line: a command from an entity, or a chat message to every registered client. */
    method RouteChat(line: ChatLine)
      modifies this`outbox, this`commandLog
      ensures var routed := RouteLine(line, world.comps.players, commands, order, sessions);
        outbox == old(outbox) + routed.sent && commandLog == old(commandLog) + routed.log
    {
      match line.from {
        case Some(e) =>
          if |line.text| > 1 && line.text[0] == '/' {
            ProcessChatCmd(e, line.text[1..]);
          } else {
            var text := if e in world.comps.players then "[" + world.comps.players[e].alias + "] " + line.text
                        else "[<anon>] " + line.text;
            NotifyAll(order, RegisteredClients(sessions), ServerMsg.Chat(text));
          }
        case None =>
          NotifyAll(order, RegisteredClients(sessions), ServerMsg.Chat(line.text));
      }
    }

    /** The chat lines of a round, routed in order, each also reported to the frontend. */
    method RouteChats(lines: seq<ChatLine>) returns (events: seq<Event>)
      modifies this`outbox, this`commandLog
      ensures var routed := RouteAll(lines, world.comps.players, commands, order, sessions);
        outbox == old(outbox) + routed.sent && commandLog == old(commandLog) + routed.log
      ensures events == ChatEvents(lines)
    {
      ghost var players, clients, byEntity := world.comps.players, order, sessions;
      events := [];
      var i := 0;
      while i < |lines|
        invariant 0 <= i <= |lines|
        invariant outbox == old(outbox) + RouteAll(lines[..i], players, commands, clients, byEntity).sent
        invariant commandLog == old(commandLog) + RouteAll(lines[..i], players, commands, clients, byEntity).log
        invariant events == ChatEvents(lines[..i])
      {
        ghost var o1, g1 := outbox, commandLog;
        RouteChat(lines[i]);
        RouteAllExtends(lines, i, players, commands, clients, byEntity,
                        old(outbox), o1, outbox, old(commandLog), g1, commandLog);
        events := events + [Event.Chat(lines[i].from, lines[i].text)];
        ChatEventsStep(lines, i);
        i := i + 1;
      }
      assert lines[..i] == lines;
    }

    // --- the rest of `handle_new_messages`

    /** The disconnected clients' entities are deleted, each reported to the frontend. */
    method DeleteDisconnected(gone: seq<Entity>) returns (events: seq<Event>)
      requires Valid() && forall x :: x in gone ==> x !in sessions
      modifies world
      ensures Valid()
      ensures (world.entities, world.comps) == DeleteAll(old(world.entities), old(world.comps), gone)
      ensures events == Departures(gone)
    {
      events := [];
      var i := 0;
      while i < |gone|
        invariant 0 <= i <= |gone| && Valid()
        invariant (world.entities, world.comps) == DeleteAll(old(world.entities), old(world.comps), gone[..i])
        invariant events == Departures(gone[..i])
      {
        world.DeleteEntity(gone[i]);
        events := events + [ClientDisconnected(gone[i])];
        assert gone[..i + 1][..i] == gone[..i];
        i := i + 1;
      }
      assert gone[..i] == gone;
    }

    /** `generate_chunk`: the key becomes pending, and a job starts only when it was not pending already. */
    method GenerateChunk(key: ChunkKey)
      requires Valid()
      modifies this`pending, this`jobs
      ensures Valid()
      ensures pending == old(pending) + {key}
      ensures jobs == if key in old(pending) then old(jobs) else old(jobs) + {key}
    {
      if key !in pending {
        pending := pending + {key};
        jobs := jobs + {key};
      }
    }

    /** The requested chunks of a round, generated in order. */
    method GenerateChunks(keys: seq<ChunkKey>)
      requires Valid()
      modifies this`pending, this`jobs
      ensures Valid()
      ensures (forall k :: k in pending <==> k in old(pending) || k in keys)
      ensures (forall k :: k in jobs <==> k in old(jobs) || (k in keys && k !in old(pending)))
    {
      var i := 0;
      while i < |keys|
        invariant 0 <= i <= |keys| && Valid()
        invariant (forall k :: k in pending <==> k in old(pending) || k in keys[..i])
        invariant (forall k :: k in jobs <==> k in old(jobs) || (k in keys[..i] && k !in old(pending)))
      {
        GenerateChunk(keys[i]);
        assert forall k :: k in keys[..i + 1] <==> k in keys[..i] || k == keys[i];
        i := i + 1;
      }
      assert keys[..i] == keys;
    }

    /** What `handle_new_messages` does with a round's lists: the chat is routed, the disconnected entities deleted and the requested chunks generated. */
    method FinishRound(chats: seq<ChatLine>, requested: seq<ChunkKey>, gone: seq<Entity>) returns (events: seq<Event>)
      requires Valid() && forall x :: x in gone ==> x !in sessions
      modifies this`outbox, this`commandLog, this`pending, this`jobs, world
      ensures Valid()
      ensures var routed := RouteAll(chats, old(world.comps).players, commands, order, sessions);
        && outbox == old(outbox) + routed.sent && commandLog == old(commandLog) + routed.log
        && (world.entities, world.comps) == DeleteAll(old(world.entities), old(world.comps), gone)
        && (forall k :: k in pending <==> k in old(pending) || k in requested)
        && (forall k :: k in jobs <==> k in old(jobs) || (k in requested && k !in old(pending)))
        && events == ChatEvents(chats) + Departures(gone)
    {
      var chatEvents := RouteChats(chats);
      var leftEvents := DeleteDisconnected(gone);
      GenerateChunks(requested);
      events := chatEvents + leftEvents;
    }

    /** `handle_new_messages`: the round over all clients, then the chat, the disconnects and the chunk requests it queued. */
    method HandleNewMessages() returns (events: seq<Event>)
      requires Valid()
      modifies this`sessions, this`order, this`outbox, this`commandLog, this`pending, this`jobs, world
      ensures Valid()
      ensures var r := ProcessRound(cfg, old(world.entities), terrain, time, old(order),
                                    Round(old(sessions), old(world.comps), [], [], [], []));
        var routed := RouteAll(r.chats, r.comps.players, commands, order, sessions);
        && sessions == r.sessions && order == Keep(old(order), r.sessions.Keys)
        && outbox == old(outbox) + r.sent + routed.sent && commandLog == old(commandLog) + routed.log
        && (world.entities, world.comps) == DeleteAll(old(world.entities), r.comps, r.gone)
        && (forall k :: k in pending <==> k in old(pending) || k in r.requested)
        && (forall k :: k in jobs <==> k in old(jobs) || (k in r.requested && k !in old(pending)))
        && events == ChatEvents(r.chats) + Departures(r.gone)
    {
      var chats, requested, gone := ProcessClients();
      events := FinishRound(chats, requested, gone);
    }

    // --- deaths and respawns

    /** The dying pass of `tick`: the Dying entities in entity order, each player among them announced to every registered client. */
    method CollectDying() returns (ds: seq<Entity>)
      modifies this`outbox
      ensures ds == Dying(world.entities, world.comps)
      ensures outbox == old(outbox) + DeathNotices(world.entities, world.comps, ds, order, sessions)
    {
      var es, c, clients, byEntity := world.entities, world.comps, order, sessions;
      ds := [];
      var i := 0;
      while i < |es|
        invariant 0 <= i <= |es|
        invariant ds == Dying(es[..i], c)
        invariant outbox == old(outbox) + DeathNotices(es, c, ds, clients, byEntity)
      {
        var e := es[i];
        DyingStep(es, i, c);
        if e in c.dying {
          DeathNoticesStep(es, c, ds, e, clients, byEntity);
          if e in c.players {
            var msg := ServerMsg.Chat(DeathNotice(es, c, e));
            AppendAssoc(old(outbox), DeathNotices(es, c, ds, clients, byEntity), Fanout(clients, RegisteredClients(byEntity), msg));
            NotifyAll(clients, RegisteredClients(byEntity), msg);
          }
          ds := ds + [e];
        }
        i := i + 1;
      }
      assert es[..i] == es;
    }

    /** Killing one dying entity, as `Kill` states. */
    method KillOne(e: Entity)
      requires Valid()
      modifies world, this`sessions, this`outbox
      ensures Valid()
      ensures Pass(world.entities, world.comps, sessions, outbox)
           == Kill(Pass(old(world.entities), old(world.comps), old(sessions), old(outbox)), e)
    {
      if e in sessions {
        world.comps := world.comps.(vel := world.comps.vel[e := ZERO], forceUpdate := world.comps.forceUpdate + {e});
        sessions := sessions[e := sessions[e].(state := Dead)];
        outbox := outbox + [Envelope(e, ForceState(Dead))];
      } else {
        world.DeleteEntity(e);
      }
    }

    /** The kill loop of `tick`. */
    method KillDying(ds: seq<Entity>)
      requires Valid()
      modifies world, this`sessions, this`outbox
      ensures Valid()
      ensures Pass(world.entities, world.comps, sessions, outbox)
           == KillAll(Pass(old(world.entities), old(world.comps), old(sessions), old(outbox)), ds)
    {
      ghost var p0 := Pass(world.entities, world.comps, sessions, outbox);
      var i := 0;
      while i < |ds|
        invariant 0 <= i <= |ds| && Valid()
        invariant Pass(world.entities, world.comps, sessions, outbox) == KillAll(p0, ds[..i])
      {
        KillOne(ds[i]);
        KillAllStep(p0, ds, i);
        i := i + 1;
      }
      assert ds[..i] == ds;
    }

    /** Deaths: the dying are announced, then killed. */
    method SyncDeaths()
      requires Valid()
      modifies world, this`sessions, this`outbox
      ensures Valid()
      ensures var ds := Dying(old(world.entities), old(world.comps));
        Pass(world.entities, world.comps, sessions, outbox)
        == KillAll(Pass(old(world.entities), old(world.comps), old(sessions),
                        old(outbox) + DeathNotices(old(world.entities), old(world.comps), ds, old(order), old(sessions))), ds)
    {
      var ds := CollectDying();
      KillDying(ds);
    }

    /** The Respawning entities, in entity order. */
    method CollectRespawning() returns (rs: seq<Entity>)
      ensures rs == Respawning(world.entities, world.comps)
    {
      var es, c := world.entities, world.comps;
      rs := [];
      var i := 0;
      while i < |es|
        invariant 0 <= i <= |es|
        invariant rs == Respawning(es[..i], c)
      {
        RespawningStep(es, i, c);
        if es[i] in c.respawning {
          rs := rs + [es[i]];
        }
        i := i + 1;
      }
      assert es[..i] == es;
    }

    /** Respawning one entity, as `Respawn` states. */
    method RespawnOne(e: Entity)
      modifies world`comps, this`sessions, this`outbox
      ensures Pass(world.entities, world.comps, sessions, outbox)
           == Respawned(cfg, Pass(world.entities, old(world.comps), old(sessions), old(outbox)), e)
    {
      if e in sessions {
        sessions := sessions[e := sessions[e].(state := ClientState.Character)];
        outbox := outbox + [Envelope(e, StateAnswerOk(ClientState.Character))];
        var c := world.comps;
        world.comps := c.(stats := c.stats[e := cfg.defaultStats],
                          pos := if e in c.pos then c.pos[e := c.pos[e].(z := c.pos[e].z + 100.0)] else c.pos,
                          vel := c.vel[e := ZERO],
                          forceUpdate := c.forceUpdate + {e});
      }
    }

    /** The respawn loop of `tick`. */
    method HandleRespawns()
      requires Valid()
      modifies world`comps, this`sessions, this`outbox
      ensures Valid()
      ensures Pass(world.entities, world.comps, sessions, outbox)
           == RespawnAll(cfg, Pass(world.entities, old(world.comps), old(sessions), old(outbox)),
                         Respawning(world.entities, old(world.comps)))
    {
      var rs := CollectRespawning();
      ghost var p0 := Pass(world.entities, world.comps, sessions, outbox);
      var i := 0;
      while i < |rs|
        invariant 0 <= i <= |rs|
        invariant Pass(world.entities, world.comps, sessions, outbox) == RespawnAll(cfg, p0, rs[..i])
        invariant sessions.Keys == old(sessions).Keys
      {
        RespawnOne(rs[i]);
        RespawnAllStep(cfg, p0, rs, i);
        i := i + 1;
      }
      assert rs[..i] == rs;
    }

    // --- terrain

    /** Step 5 of `tick`: at most one finished chunk is taken, sent to the clients that see it, inserted and no longer pending. */
    method DrainChunk()
      requires Valid()
      modifies this`outbox, this`terrain, this`pending, this`done
      ensures Valid()
      ensures old(done) == [] ==> outbox == old(outbox) && terrain == old(terrain) && pending == old(pending) && done == []
      ensures old(done) != [] ==>
        var f := old(done)[0];
        && done == old(done)[1..] && terrain == old(terrain)[f.key := f.chunk] && pending == old(pending) - {f.key}
        && outbox == old(outbox) + Fanout(world.entities, ChunkAudience(world.comps, posKey, sessions, f.key),
                                          TerrainChunkUpdate(f.key, f.chunk))
    {
      if done != [] {
        var f := done[0];
        NotifyAll(world.entities, ChunkAudience(world.comps, posKey, sessions, f.key), TerrainChunkUpdate(f.key, f.chunk));
        terrain := terrain[f.key := f.chunk];
        pending := pending - {f.key};
        assert FinishedKeys(done) == [f.key] + FinishedKeys(done[1..]);
        done := done[1..];
      }
    }

    /** The inner loop of the eviction pass: does any alive player see the chunk `key`? */
    method KeepsAlive(key: ChunkKey) returns (keep: bool)
      ensures keep <==> KeptAlive(world.entities, world.comps, posKey, key)
    {
      var es, c := world.entities, world.comps;
      keep := false;
      var i := 0;
      while i < |es|
        invariant 0 <= i <= |es|
        invariant forall j :: 0 <= j < i ==> !Sees(c, posKey, es[j], key)
      {
        if Sees(c, posKey, es[i], key) {
          keep := true;
          break;
        }
        i := i + 1;
      }
    }

    /** The eviction pass of `tick`: a loaded chunk stays exactly when some alive player sees it. */
    method EvictChunks()
      modifies this`terrain
      ensures forall k :: k in terrain <==> k in old(terrain) && KeptAlive(world.entities, world.comps, posKey, k)
      ensures forall k :: k in terrain ==> terrain[k] == old(terrain)[k]
    {
      var todo := terrain.Keys;
      var drop: set<ChunkKey> := {};
      while todo != {}
        invariant todo <= terrain.Keys && terrain == old(terrain)
        invariant forall k :: k in drop <==> k in terrain && k !in todo && !KeptAlive(world.entities, world.comps, posKey, k)
        decreases |todo|
      {
        var k :| k in todo;
        var keep := KeepsAlive(k);
        if !keep {
          drop := drop + {k};
        }
        todo := todo - {k};
      }
      terrain := terrain - drop;
    }

    // --- replication

    /** The physics loop of `sync_clients`. */
    method SyncPhysics()
      modifies this`outbox
      ensures outbox == old(outbox) + PhysicsUpdates(world.entities, world.comps, chunkSize, order, sessions)
    {
      var es, c := world.entities, world.comps;
      var i := 0;
      while i < |es|
        invariant 0 <= i <= |es|
        invariant outbox == old(outbox) + PhysicsUpdates(es[..i], c, chunkSize, order, sessions)
      {
        var e := es[i];
        assert es[..i + 1][..i] == es[..i];
        if e in c.uids && e in c.pos && e in c.vel && e in c.ori {
          var msg := EntityPhysics(c.uids[e], c.pos[e], c.vel[e], c.ori[e]);
          var to := PhysicsAudience(c, chunkSize, sessions, e);
          NotifyAll(order, to, msg);
          AppendAssoc(old(outbox), PhysicsUpdates(es[..i], c, chunkSize, order, sessions), Fanout(order, to, msg));
        }
        i := i + 1;
      }
      assert es[..i] == es;
    }

    /** The animation loop of `sync_clients`. */
    method SyncAnimations()
      modifies this`outbox
      ensures outbox == old(outbox) + AnimationUpdates(world.entities, world.comps, order, sessions)
    {
      var es, c := world.entities, world.comps;
      var i := 0;
      while i < |es|
        invariant 0 <= i <= |es|
        invariant outbox == old(outbox) + AnimationUpdates(es[..i], c, order, sessions)
      {
        var e := es[i];
        assert es[..i + 1][..i] == es[..i];
        if e in c.uids && e in c.animations && (c.animations[e].changed || e in c.forceUpdate) {
          var msg := EntityAnimation(c.uids[e], c.animations[e]);
          var to := AnimationAudience(c, sessions, e);
          NotifyAll(order, to, msg);
          AppendAssoc(old(outbox), AnimationUpdates(es[..i], c, order, sessions), Fanout(order, to, msg));
        }
        i := i + 1;
      }
      assert es[..i] == es;
    }

    /** `sync_clients`: the logical sync to registered clients, physics, animations, then every ForceUpdate is dropped. */
    method SyncClients()
      modifies this`outbox, world`comps
      ensures world.comps == old(world.comps).(forceUpdate := {})
      ensures outbox == old(outbox) + Fanout(order, RegisteredClients(sessions), EcsSync)
                                    + PhysicsUpdates(world.entities, old(world.comps), chunkSize, order, sessions)
                                    + AnimationUpdates(world.entities, old(world.comps), order, sessions)
    {
      NotifyAll(order, RegisteredClients(sessions), EcsSync);
      ghost var o1 := outbox;
      SyncPhysics();
      ghost var o2 := outbox;
      SyncAnimations();
      world.comps := world.comps.(forceUpdate := {});
    }

    /** The cleanup at the end of `tick`: no alive entity keeps Dying or Respawning. */
    method ClearMarkers()
      modifies world`comps
      ensures world.comps == old(world.comps).(dying := old(world.comps).dying - (set e | e in world.entities),
                                              respawning := old(world.comps).respawning - (set e | e in world.entities))
    {
      var es := world.entities;
      var i := 0;
      while i < |es|
        invariant 0 <= i <= |es|
        invariant world.comps == old(world.comps).(dying := old(world.comps).dying - (set e | e in es[..i]),
                                                  respawning := old(world.comps).respawning - (set e | e in es[..i]))
      {
        world.comps := world.comps.(dying := world.comps.dying - {es[i]}, respawning := world.comps.respawning - {es[i]});
        assert es[..i + 1] == es[..i] + [es[i]];
        i := i + 1;
      }
      assert es[..i] == es;
    }

    // --- the tick

    /** The death and respawn passes of `tick`. */
    method DeathsAndRespawns()
      requires Valid()
      modifies world, this`sessions, this`outbox
      ensures Valid() && order == old(order)
      ensures forall x :: x in old(world.entities) && x in old(world.comps).dying && x !in old(sessions) ==>
        x !in world.entities
      ensures forall x :: x in old(world.entities) && x in old(world.comps).dying && x in old(sessions)
                          && x !in old(world.comps).respawning ==>
        x in sessions && sessions[x].state == Dead
      ensures forall x :: x in old(world.entities) && x in old(sessions) && x in old(world.comps).respawning ==>
        x in sessions && sessions[x].state == ClientState.Character
    {
      ghost var p0 := Pass(world.entities, world.comps, sessions,
                           outbox + DeathNotices(world.entities, world.comps, Dying(world.entities, world.comps), order, sessions));
      ghost var ds := Dying(world.entities, world.comps);
      SyncDeaths();
      ghost var p1 := Pass(world.entities, world.comps, sessions, outbox);
      HandleRespawns();
      DyingMeaning(p0.entities, p0.comps);
      RespawningMeaning(p1.entities, p1.comps);
      forall x | x in p0.entities && x in p0.comps.dying
        ensures x !in p0.sessions ==> x !in world.entities
        ensures x in p0.sessions && x !in p0.comps.respawning ==> x in sessions && sessions[x].state == Dead
      {
        KillAllOutcome(p0, ds, x);
        if x in p0.sessions { KillAllKeeps(p0, ds, x); }
      }
      forall x | x in p0.entities && x in p0.sessions && x in p0.comps.respawning
        ensures x in sessions && sessions[x].state == ClientState.Character
      {
        KillAllKeeps(p0, ds, x);
      }
    }

    /** Step 5 of `tick` and the eviction pass: at most one chunk comes in, then every unseen chunk goes. */
    method UpdateTerrain()
      requires Valid()
      modifies this`outbox, this`terrain, this`pending, this`done
      ensures Valid()
      ensures old(done) == [] ==> done == [] && pending == old(pending)
      ensures old(done) != [] ==> done == old(done)[1..] && pending == old(pending) - {old(done)[0].key}
      ensures old(done) == [] ==> outbox == old(outbox)
      ensures old(done) != [] ==>
        var f := old(done)[0];
        outbox == old(outbox) + Fanout(world.entities, ChunkAudience(world.comps, posKey, sessions, f.key),
                                       TerrainChunkUpdate(f.key, f.chunk))
      ensures var loaded := if old(done) == [] then old(terrain) else old(terrain)[old(done)[0].key := old(done)[0].chunk];
        && (forall k :: k in terrain <==> k in loaded && KeptAlive(world.entities, world.comps, posKey, k))
        && (forall k :: k in terrain ==> terrain[k] == loaded[k])
    {
      DrainChunk();
      EvictChunks();
    }

    /** Step 6 of `tick` and the final cleanup. */
    method SyncAndClean()
      modifies this`outbox, world`comps
      ensures world.comps == old(world.comps).(forceUpdate := {},
                                               dying := old(world.comps).dying - (set e | e in world.entities),
                                               respawning := old(world.comps).respawning - (set e | e in world.entities))
      ensures outbox == old(outbox) + Fanout(order, RegisteredClients(sessions), EcsSync)
                                    + PhysicsUpdates(world.entities, old(world.comps), chunkSize, order, sessions)
                                    + AnimationUpdates(world.entities, old(world.comps), order, sessions)
    {
      SyncClients();
      ClearMarkers();
    }

    /** Steps 5 to 7 of `tick`: one chunk drained, eviction, sync and cleanup; the terrain kept stays seen after the cleanup. */
    method TerrainAndSync()
      requires Valid()
      modifies this`outbox, this`terrain, this`pending, this`done, world`comps
      ensures Valid()
      ensures old(done) == [] ==> done == [] && pending == old(pending)
      ensures old(done) != [] ==> done == old(done)[1..] && pending == old(pending) - {old(done)[0].key}
      ensures forall k :: k in terrain ==> KeptAlive(world.entities, world.comps, posKey, k)
      ensures world.comps.forceUpdate == {}
      ensures forall e :: e in world.entities ==> e !in world.comps.dying && e !in world.comps.respawning
    {
      UpdateTerrain();
      ghost var c := world.comps;
      SyncAndClean();
      forall k | k in terrain
        ensures KeptAlive(world.entities, world.comps, posKey, k)
      {
        var x :| x in world.entities && Sees(c, posKey, x, k);
        assert Sees(world.comps, posKey, x, k);
      }
    }

    /** Steps 4 to 7 of `tick` after the inputs: time advances, deaths, respawns, one chunk, eviction, sync and cleanup. */
    method TickWorld(dt: real)
      requires Valid()
      modifies world, this`sessions, this`outbox, this`time, this`terrain, this`pending, this`done
      ensures Valid()
      ensures time == old(time) + dt && order == old(order)
      ensures old(done) == [] ==> done == [] && pending == old(pending)
      ensures old(done) != [] ==> done == old(done)[1..] && pending == old(pending) - {old(done)[0].key}
      ensures forall k :: k in terrain ==> KeptAlive(world.entities, world.comps, posKey, k)
      ensures world.comps.forceUpdate == {}
      ensures forall e :: e in world.entities ==> e !in world.comps.dying && e !in world.comps.respawning
      ensures forall x :: x in old(world.entities) && x in old(world.comps).dying && x !in old(sessions) ==>
        x !in world.entities
      ensures forall x :: x in old(world.entities) && x in old(world.comps).dying && x in old(sessions)
                          && x !in old(world.comps).respawning ==>
        x in sessions && sessions[x].state == Dead
      ensures forall x :: x in old(world.entities) && x in old(sessions) && x in old(world.comps).respawning ==>
        x in sessions && sessions[x].state == ClientState.Character
    {
      time := time + dt;
      DeathsAndRespawns();
      TerrainAndSync();
    }

    /** `tick`: a network error aborts it untouched; otherwise connections, messages, then the world steps. */
    method Tick(newConnections: nat, dt: real, networkError: bool) returns (r: TickResult)
      requires Valid()
      modifies world, this`sessions, this`order, this`outbox, this`commandLog, this`time, this`terrain,
               this`pending, this`jobs, this`done
      ensures Valid()
      ensures networkError ==> r == NetworkError && unchanged(this) && unchanged(world)
      ensures !networkError ==> r.Ok? && time == old(time) + dt
      ensures !networkError ==> world.comps.forceUpdate == {}
      ensures !networkError ==> forall e :: e in world.entities ==> e !in world.comps.dying && e !in world.comps.respawning
      ensures !networkError ==> old(done) == [] ==> done == []
      ensures !networkError ==> old(done) != [] ==> done == old(done)[1..]
      ensures !networkError ==> forall k :: k in terrain ==> KeptAlive(world.entities, world.comps, posKey, k)
    {
      if networkError {
        return NetworkError;
      }
      var connected := HandleNewConnections(newConnections);
      var handled := HandleNewMessages();
      TickWorld(dt);
      r := Ok(connected + handled);
    }

    /** `drop`: every registered client is told the server shuts down. */
    method Drop()
      modifies this`outbox
      ensures outbox == old(outbox) + Fanout(order, RegisteredClients(sessions), Shutdown)
    {
      NotifyAll(order, RegisteredClients(sessions), Shutdown);
    }
  }
}
