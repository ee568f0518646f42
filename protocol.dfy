/**
 * The session protocol between the server and one client (server/src/lib.rs,
 * `handle_new_messages` and the helpers it calls).
 *
 * A session is in one of six states. Each message of a batch is dispatched on
 * the message and the session state: it moves the session to a new state
 * (answering StateAnswerOk), rejects it (answering StateAnswerErr with the
 * reason and the unchanged state), writes components of the session's
 * entity, queues chat lines and chunk requests, or asks for a disconnect.
 * The answers of the unseen client module are modelled as these messages.
 */
module Protocol {
  import opened Components

  const CLIENT_TIMEOUT: real := 20.0
  /** `CLIENT_TIMEOUT * 0.5`: past this silence the server pings the client. */
  const PING_AFTER: real := 10.0
  const SPAWN_POINT: Vec3 := Vec3(16384.0, 16384.0, 280.0)

  datatype ClientState = Connected | Registered | Spectator | Character | Dead | Pending

  datatype RequestStateError = WrongMessage | Already | Impossible

  /** A terrain chunk coordinate (`Vec2<i32>`). */
  datatype ChunkKey = ChunkKey(x: int, y: int)

  /** Chunk contents are generated by the world and are opaque here. */
  datatype Chunk = Chunk(id: nat)

  datatype ClientMsg =
    | RequestState(requested: ClientState)
    | Register(player: Player)
    | SetViewDistance(viewDistance: nat)
    | Character(name: string, body: Body)
    | Attack
    | Respawn
    | Chat(text: string)
    | PlayerAnimation(animationInfo: AnimationInfo)
    | PlayerPhysics(pos: Vec3, vel: Vec3, ori: Vec3)
    | TerrainChunkRequest(key: ChunkKey)
    | Ping
    | Pong
    | Disconnect

  datatype ServerMsg =
    | InitialSync(entityUid: Uid)
    | StateAnswerOk(state: ClientState)
    | StateAnswerErr(error: RequestStateError, state: ClientState)
    | ForceState(state: ClientState)
    | Chat(text: string)
    | EcsSync
    | EntityPhysics(entity: Uid, pos: Vec3, vel: Vec3, ori: Vec3)
    | EntityAnimation(entity: Uid, animationInfo: AnimationInfo)
    | TerrainChunkUpdate(key: ChunkKey, chunk: Chunk)
    | Ping
    | Pong
    | Disconnect
    | Shutdown

  /** A chat line queued during message handling: from an entity, or a server notice. */
  datatype ChatLine = ChatLine(from: Option<Entity>, text: string)

  /** Values the dispatch needs from code outside this model. */
  datatype Config = Config(maxMsgLen: nat, defaultStats: Stats, defaultAnimation: AnimationInfo)

  /** A session: its protocol state, last sign of life, unread messages and postbox health. */
  datatype Session = Session(state: ClientState, lastPing: real, inbox: seq<ClientMsg>, postboxError: bool)

  /** The running result of a batch: state, messages sent back, the disconnect flag, queued chat and chunk requests. */
  datatype Step = Step(state: ClientState, sent: seq<ServerMsg>, disconnect: bool,
                       chats: seq<ChatLine>, requested: seq<ChunkKey>)

  datatype Effect = Effect(step: Step, comps: Storages)

  /** The states whose clients take part in the game world. */
  predicate InGame(st: ClientState) { st == Spectator || st == ClientState.Character }

  /** `allow_state`: the session moves and the client is told. */
  function Allow(s: Step, to: ClientState): Step {
    s.(state := to, sent := s.sent + [StateAnswerOk(to)])
  }

  /** `error_state`: the session stays and the client is told why. */
  function Refuse(s: Step, why: RequestStateError): Step {
    s.(sent := s.sent + [StateAnswerErr(why, s.state)])
  }

  /** The physics sync of `initialize_player`: one message per entity with Uid, Pos, Vel and Ori. */
  function PhysicsSync(es: seq<Entity>, c: Storages): seq<ServerMsg>
    decreases |es|
  {
    if es == [] then []
    else
      var e := es[|es| - 1];
      PhysicsSync(es[..|es| - 1], c)
      + (if e in c.uids && e in c.pos && e in c.vel && e in c.ori
         then [EntityPhysics(c.uids[e], c.pos[e], c.vel[e], c.ori[e])] else [])
  }

  /** The animation sync of `initialize_player`: one message per entity with Uid and AnimationInfo. */
  function AnimationSync(es: seq<Entity>, c: Storages): seq<ServerMsg>
    decreases |es|
  {
    if es == [] then []
    else
      var e := es[|es| - 1];
      AnimationSync(es[..|es| - 1], c)
      + (if e in c.uids && e in c.animations then [EntityAnimation(c.uids[e], c.animations[e])] else [])
  }

  /** `initialize_player` and the login notice: the Player is stored, the world state sent, and the session registered. */
  function InitializePlayer(es: seq<Entity>, e: Entity, c: Storages, s: Step, player: Player): Effect {
    var c1 := c.(players := c.players[e := player]);
    var synced := s.(sent := s.sent + PhysicsSync(es, c1) + AnimationSync(es, c1));
    var s1 := Allow(synced, Registered);
    Effect(s1.(chats := s1.chats + [ChatLine(None, player.alias + " logged in")]), c1)
  }

  /** `create_player_character`: a fresh character at the spawn point, force-updated, and the session in ClientState.Character. */
  function CreateCharacter(cfg: Config, e: Entity, c: Storages, s: Step, name: string, body: Body): Effect {
    var c1 := c.(actors := c.actors[e := Actor.Character(name, body)],
                 stats := c.stats[e := cfg.defaultStats],
                 animations := c.animations[e := cfg.defaultAnimation],
                 pos := c.pos[e := SPAWN_POINT],
                 vel := c.vel[e := ZERO],
                 ori := c.ori[e := UNIT_Y],
                 forceUpdate := c.forceUpdate + {e});
    Effect(Allow(s, ClientState.Character), c1)
  }

  /** The dispatch of one client message, in the session state held by `s`. */
  function HandleMsg(cfg: Config, es: seq<Entity>, terrain: map<ChunkKey, Chunk>, e: Entity,
                     c: Storages, s: Step, msg: ClientMsg): Effect
  {
    match msg
    case RequestState(r) =>
      var s' := match r
        case Connected => s.(disconnect := true)
        case Registered =>
          (match s.state
           case Connected => Refuse(s, WrongMessage)
           case Registered => Refuse(s, Already)
           case Spectator | Character | Dead => Allow(s, Registered)
           case Pending => s)
        case Spectator =>
          // the inner match examines the requested state again, not the session's
          (match r
           case Connected => Refuse(s, Impossible)
           case Spectator => Refuse(s, Already)
           case Registered | Character | Dead => Allow(s, Spectator)
           case Pending => s)
        case Character => Refuse(s, WrongMessage)
        case Dead => Refuse(s, Impossible)
        case Pending => s;
      Effect(s', c)
    case Register(player) =>
      if s.state == Connected then InitializePlayer(es, e, c, s, player)
      else Effect(Refuse(s, Impossible), c)
    case SetViewDistance(vd) =>
      if s.state == ClientState.Character && e in c.players then
        Effect(s, c.(players := c.players[e := c.players[e].(viewDistance := Some(vd))]))
      else Effect(s, c)
    case Character(name, body) =>
      (match s.state
       case Connected => Effect(Refuse(s, Impossible), c)
       case Registered | Spectator | Dead => CreateCharacter(cfg, e, c, s, name, body)
       case Character => Effect(Refuse(s, Already), c)
       case Pending => Effect(s, c))
    case Attack =>
      if s.state != ClientState.Character then Effect(Refuse(s, Impossible), c)
      else if e in c.attacking then Effect(s, c)
      else Effect(s, c.(attacking := c.attacking[e := ATTACK_START]))
    case Respawn =>
      if s.state == Dead then Effect(s, c.(respawning := c.respawning + {e}))
      else Effect(Refuse(s, Impossible), c)
    case Chat(text) =>
      (match s.state
       case Connected => Effect(Refuse(s, Impossible), c)
       case Registered | Spectator | Dead | Character =>
         if |text| <= cfg.maxMsgLen then Effect(s.(chats := s.chats + [ChatLine(Some(e), text)]), c)
         else Effect(s, c)
       case Pending => Effect(s, c))
    case PlayerAnimation(info) =>
      if s.state == ClientState.Character then Effect(s, c.(animations := c.animations[e := info]))
      else Effect(Refuse(s, Impossible), c)
    case PlayerPhysics(pos, vel, ori) =>
      if s.state == ClientState.Character then
        Effect(s, c.(pos := c.pos[e := pos], vel := c.vel[e := vel], ori := c.ori[e := ori]))
      else Effect(Refuse(s, Impossible), c)
    case TerrainChunkRequest(key) =>
      (match s.state
       case Connected | Registered | Dead => Effect(Refuse(s, Impossible), c)
       case Spectator | Character =>
         if key in terrain then Effect(s.(sent := s.sent + [TerrainChunkUpdate(key, terrain[key])]), c)
         else Effect(s.(requested := s.requested + [key]), c)
       case Pending => Effect(s, c))
    case Ping => Effect(s.(sent := s.sent + [ServerMsg.Pong]), c)
    case Pong => Effect(s, c)
    case Disconnect => Effect(s.(disconnect := true), c)
  }

  /** A batch of messages dispatched in arrival order. */
  function HandleBatch(cfg: Config, es: seq<Entity>, terrain: map<ChunkKey, Chunk>, e: Entity,
                       c: Storages, s: Step, msgs: seq<ClientMsg>): Effect
    decreases |msgs|
  {
    if msgs == [] then Effect(s, c)
    else
      var ef := HandleBatch(cfg, es, terrain, e, c, s, msgs[..|msgs| - 1]);
      HandleMsg(cfg, es, terrain, e, ef.comps, ef.step, msgs[|msgs| - 1])
  }

  /** What one session's turn in `handle_new_messages` produces. */
  datatype Outcome = Outcome(session: Session, comps: Storages, sent: seq<ServerMsg>,
                             chats: seq<ChatLine>, requested: seq<ChunkKey>, disconnect: bool)

  /** The end of a session's turn: on disconnect a notice is queued if it had a Player and a Disconnect is sent. */
  function Finish(e: Entity, ss: Session, c: Storages, st: Step): Outcome {
    var ss' := ss.(state := st.state);
    if st.disconnect then
      var notice := if e in c.players then [ChatLine(None, c.players[e].alias + " disconnected")] else [];
      Outcome(ss', c, st.sent + [ServerMsg.Disconnect], st.chats + notice, st.requested, true)
    else Outcome(ss', c, st.sent, st.chats, st.requested, false)
  }

  /** One session's turn at time `now`: a non-empty batch is dispatched and refreshes `lastPing`; a silent session is dropped after 20 s or a postbox error, and pinged after 10 s. */
  function ProcessSession(cfg: Config, es: seq<Entity>, terrain: map<ChunkKey, Chunk>, now: real,
                          e: Entity, ss: Session, c: Storages): Outcome
  {
    var start := Step(ss.state, [], false, [], []);
    if |ss.inbox| > 0 then
      var ef := HandleBatch(cfg, es, terrain, e, c, start, ss.inbox);
      Finish(e, ss.(lastPing := now, inbox := []), ef.comps, ef.step)
    else if now - ss.lastPing > CLIENT_TIMEOUT || ss.postboxError then
      Finish(e, ss, c, start.(disconnect := true))
    else if now - ss.lastPing > PING_AFTER then
      Finish(e, ss, c, start.(sent := [ServerMsg.Ping]))
    else Finish(e, ss, c, start)
  }

  // ---------------------------------------------------------------------------
  // The state table

  /** Requesting Connected asks for a disconnect and changes nothing else. */
  lemma RequestConnectedDisconnects(cfg: Config, es: seq<Entity>, terrain: map<ChunkKey, Chunk>, e: Entity, c: Storages, s: Step)
    ensures HandleMsg(cfg, es, terrain, e, c, s, RequestState(Connected)) == Effect(s.(disconnect := true), c)
  {
  }

  /** Requesting Registered: wrong message from Connected, already from Registered, granted from Spectator, ClientState.Character and Dead, ignored in Pending. */
  lemma RequestRegistered(cfg: Config, es: seq<Entity>, terrain: map<ChunkKey, Chunk>, e: Entity, c: Storages, s: Step)
    ensures var ef := HandleMsg(cfg, es, terrain, e, c, s, RequestState(Registered));
      && ef.comps == c
      && (s.state == Connected ==> ef.step == s.(sent := s.sent + [StateAnswerErr(WrongMessage, Connected)]))
      && (s.state == Registered ==> ef.step == s.(sent := s.sent + [StateAnswerErr(Already, Registered)]))
      && (s.state in {Spectator, ClientState.Character, Dead} ==>
            ef.step == s.(state := Registered, sent := s.sent + [StateAnswerOk(Registered)]))
      && (s.state == Pending ==> ef.step == s)
  {
  }

  /** Requesting Spectator is answered Already in every state and never moves the session. */
  lemma RequestSpectatorAlwaysAlready(cfg: Config, es: seq<Entity>, terrain: map<ChunkKey, Chunk>, e: Entity, c: Storages, s: Step)
    ensures HandleMsg(cfg, es, terrain, e, c, s, RequestState(Spectator))
         == Effect(s.(sent := s.sent + [StateAnswerErr(Already, s.state)]), c)
  {
  }

  /** Requesting ClientState.Character is the wrong message and requesting Dead is impossible, in every state. */
  lemma RequestCharacterOrDead(cfg: Config, es: seq<Entity>, terrain: map<ChunkKey, Chunk>, e: Entity, c: Storages, s: Step)
    ensures HandleMsg(cfg, es, terrain, e, c, s, RequestState(ClientState.Character))
         == Effect(s.(sent := s.sent + [StateAnswerErr(WrongMessage, s.state)]), c)
    ensures HandleMsg(cfg, es, terrain, e, c, s, RequestState(Dead))
         == Effect(s.(sent := s.sent + [StateAnswerErr(Impossible, s.state)]), c)
  {
  }

  /** Register is taken only from Connected, and then ends in Registered with the Player stored; elsewhere it is impossible. */
  lemma RegisterOnlyFromConnected(cfg: Config, es: seq<Entity>, terrain: map<ChunkKey, Chunk>, e: Entity, c: Storages, s: Step, p: Player)
    ensures var ef := HandleMsg(cfg, es, terrain, e, c, s, Register(p));
      if s.state == Connected then
        ef.step.state == Registered && ef.step.sent[|ef.step.sent| - 1] == StateAnswerOk(Registered)
        && ef.comps.players == c.players[e := p]
      else ef == Effect(s.(sent := s.sent + [StateAnswerErr(Impossible, s.state)]), c)
  {
  }

  /** ClientState.Character: granted from Registered, Spectator and Dead with the character placed at the spawn point; already in ClientState.Character; impossible from Connected; ignored in Pending. */
  lemma CharacterTable(cfg: Config, es: seq<Entity>, terrain: map<ChunkKey, Chunk>, e: Entity, c: Storages, s: Step, name: string, body: Body)
    ensures var ef := HandleMsg(cfg, es, terrain, e, c, s, ClientMsg.Character(name, body));
      && (s.state in {Registered, Spectator, Dead} ==>
            && ef.step == s.(state := ClientState.Character, sent := s.sent + [StateAnswerOk(ClientState.Character)])
            && ef.comps.pos[e] == SPAWN_POINT && ef.comps.stats[e] == cfg.defaultStats
            && ef.comps.actors[e] == Actor.Character(name, body) && e in ef.comps.forceUpdate)
      && (s.state == ClientState.Character ==> ef == Effect(s.(sent := s.sent + [StateAnswerErr(Already, ClientState.Character)]), c))
      && (s.state == Connected ==> ef == Effect(s.(sent := s.sent + [StateAnswerErr(Impossible, Connected)]), c))
      && (s.state == Pending ==> ef == Effect(s, c))
  {
  }

  /** Attack, PlayerAnimation and PlayerPhysics outside ClientState.Character, and Respawn outside Dead, are impossible and change nothing. */
  lemma GatedMessages(cfg: Config, es: seq<Entity>, terrain: map<ChunkKey, Chunk>, e: Entity, c: Storages, s: Step, msg: ClientMsg)
    requires || ((msg.Attack? || msg.PlayerAnimation? || msg.PlayerPhysics?) && s.state != ClientState.Character)
             || (msg.Respawn? && s.state != Dead)
    ensures HandleMsg(cfg, es, terrain, e, c, s, msg) == Effect(s.(sent := s.sent + [StateAnswerErr(Impossible, s.state)]), c)
  {
  }

  /** An Attack in ClientState.Character starts a swing only when none is active, so an active swing is never restarted. */
  lemma AttackNeverRestarts(cfg: Config, es: seq<Entity>, terrain: map<ChunkKey, Chunk>, e: Entity, c: Storages, s: Step)
    requires s.state == ClientState.Character
    ensures var ef := HandleMsg(cfg, es, terrain, e, c, s, ClientMsg.Attack);
      && ef.step == s
      && (e in c.attacking ==> ef.comps == c)
      && (e !in c.attacking ==> ef.comps == c.(attacking := c.attacking[e := ATTACK_START]))
  {
  }

  /** Chat is impossible in Connected, ignored in Pending, and otherwise queued exactly when it is at most `maxMsgLen` long. */
  lemma ChatGate(cfg: Config, es: seq<Entity>, terrain: map<ChunkKey, Chunk>, e: Entity, c: Storages, s: Step, text: string)
    ensures var ef := HandleMsg(cfg, es, terrain, e, c, s, ClientMsg.Chat(text));
      && ef.comps == c
      && (s.state == Connected ==> ef.step == s.(sent := s.sent + [StateAnswerErr(Impossible, Connected)]))
      && (s.state !in {Connected, Pending} && |text| <= cfg.maxMsgLen ==>
            ef.step == s.(chats := s.chats + [ChatLine(Some(e), text)]))
      && (s.state == Pending || (s.state != Connected && |text| > cfg.maxMsgLen) ==> ef.step == s)
  {
  }

  /** Ping is answered with Pong, Pong is ignored and Disconnect asks for a disconnect, whatever the state. */
  lemma AlwaysPossible(cfg: Config, es: seq<Entity>, terrain: map<ChunkKey, Chunk>, e: Entity, c: Storages, s: Step)
    ensures HandleMsg(cfg, es, terrain, e, c, s, ClientMsg.Ping) == Effect(s.(sent := s.sent + [ServerMsg.Pong]), c)
    ensures HandleMsg(cfg, es, terrain, e, c, s, ClientMsg.Pong) == Effect(s, c)
    ensures HandleMsg(cfg, es, terrain, e, c, s, ClientMsg.Disconnect) == Effect(s.(disconnect := true), c)
  {
  }

  /** A chunk request is impossible in Connected, Registered and Dead, ignored in Pending, and otherwise answered with the loaded chunk or queued for generation. */
  lemma ChunkRequestGate(cfg: Config, es: seq<Entity>, terrain: map<ChunkKey, Chunk>, e: Entity, c: Storages, s: Step, key: ChunkKey)
    ensures var ef := HandleMsg(cfg, es, terrain, e, c, s, TerrainChunkRequest(key));
      && ef.comps == c
      && (s.state in {Connected, Registered, Dead} ==> ef.step == s.(sent := s.sent + [StateAnswerErr(Impossible, s.state)]))
      && (InGame(s.state) && key in terrain ==> ef.step == s.(sent := s.sent + [TerrainChunkUpdate(key, terrain[key])]))
      && (InGame(s.state) && key !in terrain ==> ef.step == s.(requested := s.requested + [key]))
      && (s.state == Pending ==> ef.step == s)
  {
  }

  /** Whether a message's answer moved the session: the last message sent is StateAnswerOk of the new state. */
  predicate AnsweredOk(s: Step, s': Step) {
    |s'.sent| > 0 && s'.sent[|s'.sent| - 1] == StateAnswerOk(s'.state)
  }

  /** The session state changes only through an allowed answer, and only Register leaves Connected. */
  lemma StateMovesOnlyWhenAllowed(cfg: Config, es: seq<Entity>, terrain: map<ChunkKey, Chunk>, e: Entity, c: Storages, s: Step, msg: ClientMsg)
    ensures var s' := HandleMsg(cfg, es, terrain, e, c, s, msg).step;
      && (s'.state != s.state ==> AnsweredOk(s, s'))
      && (s.state == Connected && s'.state != Connected ==> msg.Register? && s'.state == Registered)
  {
  }

  /** No message ever brings a session back to Connected or into Pending. */
  lemma NeverBackToConnected(cfg: Config, es: seq<Entity>, terrain: map<ChunkKey, Chunk>, e: Entity, c: Storages, s: Step, msgs: seq<ClientMsg>)
    requires s.state != Connected && s.state != Pending
    ensures var s' := HandleBatch(cfg, es, terrain, e, c, s, msgs).step;
      s'.state != Connected && s'.state != Pending
    decreases |msgs|
  {
    if msgs != [] {
      NeverBackToConnected(cfg, es, terrain, e, c, s, msgs[..|msgs| - 1]);
    }
  }

  /** One message only adds to what is sent, queued and requested; a disconnect request stays, and Disconnect or a request for Connected raises one. */
  lemma MsgOnlyAppends(cfg: Config, es: seq<Entity>, terrain: map<ChunkKey, Chunk>, e: Entity, c: Storages, s: Step, msg: ClientMsg)
    ensures var s' := HandleMsg(cfg, es, terrain, e, c, s, msg).step;
      && s.sent <= s'.sent && s.chats <= s'.chats && s.requested <= s'.requested
      && (s.disconnect || msg == ClientMsg.Disconnect || msg == RequestState(Connected) <==> s'.disconnect)
  {
  }

  /** A batch only adds to what it sends, queues and requests, and a disconnect request is never withdrawn. */
  lemma {:induction false} BatchOnlyAppends(cfg: Config, es: seq<Entity>, terrain: map<ChunkKey, Chunk>, e: Entity, c: Storages, s: Step, msgs: seq<ClientMsg>)
    ensures var s' := HandleBatch(cfg, es, terrain, e, c, s, msgs).step;
      && s.sent <= s'.sent && s.chats <= s'.chats && s.requested <= s'.requested
      && (s.disconnect || ClientMsg.Disconnect in msgs || RequestState(Connected) in msgs <==> s'.disconnect)
    decreases |msgs|
  {
    if msgs != [] {
      var pre := msgs[..|msgs| - 1];
      var last := msgs[|msgs| - 1];
      BatchOnlyAppends(cfg, es, terrain, e, c, s, pre);
      var ef := HandleBatch(cfg, es, terrain, e, c, s, pre);
      MsgOnlyAppends(cfg, es, terrain, e, ef.comps, ef.step, last);
      assert msgs == pre + [last];
      assert forall m :: m in msgs <==> m in pre || m == last;
    }
  }

  // ---------------------------------------------------------------------------
  // Keep-alive

  /** A non-empty batch refreshes `lastPing` to now and empties the inbox. */
  lemma BatchRefreshesPing(cfg: Config, es: seq<Entity>, terrain: map<ChunkKey, Chunk>, now: real, e: Entity, ss: Session, c: Storages)
    requires |ss.inbox| > 0
    ensures var o := ProcessSession(cfg, es, terrain, now, e, ss, c);
      o.session.lastPing == now && o.session.inbox == []
  {
  }

  /** A silent session is dropped exactly after more than 20 s or on a postbox error; otherwise it is pinged exactly after more than 10 s; its state and components are untouched. */
  lemma SilentSession(cfg: Config, es: seq<Entity>, terrain: map<ChunkKey, Chunk>, now: real, e: Entity, ss: Session, c: Storages)
    requires ss.inbox == []
    ensures var o := ProcessSession(cfg, es, terrain, now, e, ss, c);
      var elapsed := now - ss.lastPing;
      && o.session == ss && o.comps == c && o.requested == []
      && (o.disconnect <==> elapsed > CLIENT_TIMEOUT || ss.postboxError)
      && (o.disconnect ==> o.sent == [ServerMsg.Disconnect])
      && (!o.disconnect ==> (o.sent == [ServerMsg.Ping] <==> elapsed > PING_AFTER) && (o.sent == [] <==> elapsed <= PING_AFTER))
  {
  }

  /** The sync messages of a login are physics and animation updates only. */
  lemma {:induction false} SyncSendsNoDisconnect(es: seq<Entity>, c: Storages)
    ensures ServerMsg.Disconnect !in PhysicsSync(es, c) && ServerMsg.Disconnect !in AnimationSync(es, c)
    decreases |es|
  {
    if es != [] {
      SyncSendsNoDisconnect(es[..|es| - 1], c);
    }
  }

  /** Dispatching a batch never sends Disconnect itself. */
  lemma {:induction false} BatchSendsNoDisconnect(cfg: Config, es: seq<Entity>, terrain: map<ChunkKey, Chunk>, e: Entity, c: Storages, s: Step, msgs: seq<ClientMsg>)
    requires ServerMsg.Disconnect !in s.sent
    ensures ServerMsg.Disconnect !in HandleBatch(cfg, es, terrain, e, c, s, msgs).step.sent
    decreases |msgs|
  {
    if msgs != [] {
      BatchSendsNoDisconnect(cfg, es, terrain, e, c, s, msgs[..|msgs| - 1]);
      var ef := HandleBatch(cfg, es, terrain, e, c, s, msgs[..|msgs| - 1]);
      if msgs[|msgs| - 1].Register? {
        SyncSendsNoDisconnect(es, ef.comps.(players := ef.comps.players[e := msgs[|msgs| - 1].player]));
      }
    }
  }

  /** A session's turn ends in a disconnect exactly when the last message sent to it is Disconnect. */
  lemma DisconnectIsLast(cfg: Config, es: seq<Entity>, terrain: map<ChunkKey, Chunk>, now: real, e: Entity, ss: Session, c: Storages)
    ensures var o := ProcessSession(cfg, es, terrain, now, e, ss, c);
      o.disconnect <==> |o.sent| > 0 && o.sent[|o.sent| - 1] == ServerMsg.Disconnect
  {
    if |ss.inbox| > 0 {
      BatchSendsNoDisconnect(cfg, es, terrain, e, c, Step(ss.state, [], false, [], []), ss.inbox);
    }
  }
}
