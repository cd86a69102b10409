/**
 * The support-chat relay of backend/app/Domain/WebSocket/router.py: the
 * connection registry (`AdvancedCustomerSupportManager`), the routing rule
 * `process_message`, and the receive loop of one `websocket_endpoint` session.
 *
 * A socket is an abstract `Handle`. Every `send_text` on any socket is recorded,
 * in order, in the log of one `Wire` object; `Outbox(log, h)` is what socket `h`
 * has been sent.
 */
module Support {
  import opened Wrappers
  import opened Chat
  import opened Seqs

  type Handle = nat
  type Timestamp = int

  /** The control message that is neither saved nor routed. */
  const ConnectMessage: string := "__CONNECT__"

  /** A decoded inbound JSON object; absent keys are `None`. */
  datatype MessageData = MessageData(userPk: Option<UserPk>, message: string, isFromAdmin: Option<bool>)

  /** One text frame as `json.loads` sees it. */
  datatype Frame = BadJson | Decoded(data: MessageData)

  /** A frame together with the clock reading while it is handled. */
  datatype Received = Received(frame: Frame, clock: Timestamp)

  /** The reason carried by an `{"error": ...}` frame. */
  datatype ErrorReason = InvalidJson | Raised(error: ChatError)

  /** What can be written to a socket. */
  datatype Payload =
    | ChatFrame(record: ChatMessage)                                 // the saved record
    | AdminFrame(record: ChatMessage, fromCustomerPk: Option<UserPk>) // the record plus `from_customer_pk`
    | OfflineNotice(customerPk: Option<UserPk>, timestamp: Timestamp) // `{"type": "error", ...}`
    | ErrorFrame(reason: ErrorReason)

  datatype Delivery = Delivery(to: Handle, payload: Payload)

  /** The three fields of the connection registry as one value. */
  datatype Registry = Registry(connections: map<UserPk, Handle>, admins: set<UserPk>, customers: set<UserPk>)

  /** The payloads written to socket `h`, in order. */
  function Outbox(log: seq<Delivery>, h: Handle): (r: seq<Payload>)
    ensures |r| <= |log|
  {
    if log == [] then []
    else
      var last := log[|log| - 1];
      Outbox(log[..|log| - 1], h) + (if last.to == h then [last.payload] else [])
  }

  lemma OutboxOfAppend(log: seq<Delivery>, more: seq<Delivery>, h: Handle)
    ensures Outbox(log + more, h) == Outbox(log, h) + Outbox(more, h)
    decreases |more|
  {
    if more == [] {
      assert log + more == log;
    } else {
      var init := more[..|more| - 1];
      var last := more[|more| - 1];
      assert (log + more)[..|log + more| - 1] == log + init;
      assert (log + more)[|log + more| - 1] == last;
      OutboxOfAppend(log, init, h);
    }
  }

  /** Python truthiness of a `user_pk`: `None` and `0` count as absent. */
  predicate Truthy(pk: Option<UserPk>) {
    pk.Some? && pk.value != 0
  }

  predicate IsIn(pk: Option<UserPk>, ids: set<UserPk>) {
    pk.Some? && pk.value in ids
  }

  predicate IsKey(pk: Option<UserPk>, conn: map<UserPk, Handle>) {
    pk.Some? && pk.value in conn
  }

  /** One copy of `p` to the socket of each id, in the order of `ids`. */
  function Fanout(ids: seq<UserPk>, conn: map<UserPk, Handle>, p: Payload): (r: seq<Delivery>)
    requires forall a :: a in ids ==> a in conn
    ensures |r| == |ids|
    ensures forall i :: 0 <= i < |ids| ==> ids[i] in conn && r[i] == Delivery(conn[ids[i]], p)
  {
    if ids == [] then []
    else
      var init, last := ids[..|ids| - 1], ids[|ids| - 1];
      assert last in ids && forall a :: a in init ==> a in ids;
      Fanout(init, conn, p) + [Delivery(conn[last], p)]
  }

  /**
   * When no two of the ids share a socket, a fan-out puts exactly one copy of
   * the payload in each of their outboxes and nothing in any other outbox.
   */
  lemma {:induction false} FanoutOutbox(ids: seq<UserPk>, conn: map<UserPk, Handle>, p: Payload, h: Handle)
    requires forall a :: a in ids ==> a in conn
    requires Distinct(ids)
    requires forall a, b :: a in ids && b in ids && a != b ==> conn[a] != conn[b]
    ensures (exists a :: a in ids && conn[a] == h) ==> Outbox(Fanout(ids, conn, p), h) == [p]
    ensures (forall a :: a in ids ==> conn[a] != h) ==> Outbox(Fanout(ids, conn, p), h) == []
  {
    if ids != [] {
      var init := ids[..|ids| - 1];
      var last := ids[|ids| - 1];
      assert forall a :: a in init ==> a in ids;
      assert last !in init by {
        forall i | 0 <= i < |init| ensures init[i] != last {
          assert ids[i] == init[i];
        }
      }
      FanoutOutbox(init, conn, p, h);
      assert Fanout(ids, conn, p)[..|ids| - 1] == Fanout(init, conn, p);
      if conn[last] == h {
        assert forall a :: a in init ==> conn[a] != h;
      } else {
        assert (exists a :: a in ids && conn[a] == h) ==> exists a :: a in init && conn[a] == h;
      }
    }
  }

  /** All sockets, seen through the send side. */
  class Wire {
    var log: seq<Delivery>

    constructor ()
      ensures log == []
    {
      log := [];
    }

    /** `websocket.send_text(payload)`. */
    method SendText(websocket: Handle, payload: Payload)
      modifies this
      ensures log == old(log) + [Delivery(websocket, payload)]
    {
      log := log + [Delivery(websocket, payload)];
    }
  }

  /** `AdvancedCustomerSupportManager`: who is online and in which role. */
  class SupportManager {
    var allConnections: map<UserPk, Handle>
    var adminUserIds: set<UserPk>
    var customerUserIds: set<UserPk>
    const wire: Wire

    constructor (wire: Wire)
      ensures this.wire == wire
      ensures allConnections == map[] && adminUserIds == {} && customerUserIds == {}
    {
      this.wire := wire;
      allConnections := map[];
      adminUserIds := {};
      customerUserIds := {};
    }

    function Snapshot(): Registry
      reads this
    {
      Registry(allConnections, adminUserIds, customerUserIds)
    }

    /** The design's invariant that no id holds both roles. */
    ghost predicate RolesDisjoint()
      reads this
    {
      adminUserIds !! customerUserIds
    }

    /**
     * `connect`: the id now maps to this socket (replacing any earlier one) and
     * joins the set of its role; it is never taken out of the other role's set.
     */
    method Connect(websocket: Handle, userPk: UserPk, isAdmin: bool)
      modifies this
      ensures allConnections == old(allConnections)[userPk := websocket]
      ensures adminUserIds == (if isAdmin then old(adminUserIds) + {userPk} else old(adminUserIds))
      ensures customerUserIds == (if isAdmin then old(customerUserIds) else old(customerUserIds) + {userPk})
      ensures old(RolesDisjoint()) && userPk !in (if isAdmin then old(customerUserIds) else old(adminUserIds))
        ==> RolesDisjoint()
    {
      allConnections := allConnections[userPk := websocket];
      if isAdmin {
        adminUserIds := adminUserIds + {userPk};
      } else {
        customerUserIds := customerUserIds + {userPk};
      }
    }

    /**
     * `disconnect`: the id leaves the map, and leaves the admin set if it is
     * there and otherwise the customer set; an absent id changes nothing.
     */
    method Disconnect(userPk: UserPk)
      modifies this
      ensures allConnections == old(allConnections) - {userPk}
      ensures userPk in old(adminUserIds) ==>
        adminUserIds == old(adminUserIds) - {userPk} && customerUserIds == old(customerUserIds)
      ensures userPk !in old(adminUserIds) ==>
        adminUserIds == old(adminUserIds) && customerUserIds == old(customerUserIds) - {userPk}
      ensures old(RolesDisjoint()) ==> RolesDisjoint() && userPk !in adminUserIds && userPk !in customerUserIds
    {
      if userPk in allConnections {
        allConnections := allConnections - {userPk};
      }
      if userPk in adminUserIds {
        adminUserIds := adminUserIds - {userPk};
      } else if userPk in customerUserIds {
        customerUserIds := customerUserIds - {userPk};
      }
    }

    /** `send_to_user`: delivers to the id's socket exactly when the id is connected. */
    method SendToUser(message: Payload, userPk: Option<UserPk>) returns (sent: bool)
      modifies wire
      ensures sent == IsKey(userPk, allConnections)
      ensures wire.log == old(wire.log) + (if sent then [Delivery(allConnections[userPk.value], message)] else [])
    {
      if IsKey(userPk, allConnections) {
        wire.SendText(allConnections[userPk.value], message);
        return true;
      }
      return false;
    }

    /**
     * `send_to_specific_customer`: delivers only to an id that is both a
     * customer and connected; a connected admin id gets nothing.
     */
    method SendToSpecificCustomer(message: Payload, customerPk: Option<UserPk>) returns (sent: bool)
      modifies wire
      ensures sent == (IsIn(customerPk, customerUserIds) && IsKey(customerPk, allConnections))
      ensures wire.log == old(wire.log) + (if sent then [Delivery(allConnections[customerPk.value], message)] else [])
    {
      if IsIn(customerPk, customerUserIds) && IsKey(customerPk, allConnections) {
        wire.SendText(allConnections[customerPk.value], message);
        sent := true;
      } else {
        sent := false;
      }
    }

    /**
     * `send_to_all_admins`: one copy of the record tagged with `from_customer_pk`
     * to each connected admin, visiting the admin set in some order `visited`;
     * `sentCount` is the number of connected admins.
     */
    method SendToAllAdmins(record: ChatMessage, fromCustomerPk: Option<UserPk>)
      returns (sentCount: nat, ghost visited: seq<UserPk>)
      modifies wire
      ensures Distinct(visited)
      ensures forall a :: a in visited <==> a in adminUserIds && a in allConnections
      ensures sentCount == |visited| == |adminUserIds * allConnections.Keys|
      ensures wire.log == old(wire.log) + Fanout(visited, allConnections, AdminFrame(record, fromCustomerPk))
    {
      var adminMessage := AdminFrame(record, fromCustomerPk);
      sentCount := 0;
      visited := [];
      var remaining := adminUserIds;
      // The `for` over the admin set: take some element not yet visited, until none is left.
      while true
        invariant remaining <= adminUserIds
        invariant Distinct(visited)
        invariant forall a :: a in visited <==> a in adminUserIds - remaining && a in allConnections
        invariant sentCount == |visited|
        invariant wire.log == old(wire.log) + Fanout(visited, allConnections, adminMessage)
        decreases remaining
      {
        if adminId :| adminId in remaining {
          if adminId in allConnections {
            wire.SendText(allConnections[adminId], adminMessage);
            sentCount := sentCount + 1;
            visited := visited + [adminId];
          }
          remaining := remaining - {adminId};
        } else {
          break;
        }
      }
      assert (set a | a in visited) == adminUserIds * allConnections.Keys by {
        forall a ensures a in (set b | b in visited) <==> a in adminUserIds * allConnections.Keys {
        }
      }
      DistinctCard(visited);
    }
  }

  /** A frame that `process_message` saves: not the control message, and its `user_pk` names a user. */
  predicate Persists(data: MessageData, users: map<UserPk, User>) {
    data.message != ConnectMessage && IsIn(data.userPk, users.Keys)
  }

  /** The row saved for `data`: the frame's own `user_pk`, message and `is_from_admin` (default false). */
  function Record(data: MessageData, id: nat, now: Timestamp): ChatMessage
    requires data.userPk.Some?
  {
    ChatMessage(id, data.userPk.value, data.message, data.isFromAdmin.GetOr(false), now)
  }

  /**
   * What `process_message` sends after saving `record`. When the FRAME says
   * `is_from_admin`, the record goes to the frame's `user_pk` as a customer, or
   * else an offline notice goes to the session's own id; otherwise every
   * connected admin gets the record tagged with the session's id.
   */
  ghost predicate Routed(data: MessageData, record: ChatMessage, userPk: Option<UserPk>, reg: Registry,
                         now: Timestamp, sent: seq<Delivery>)
  {
    if data.isFromAdmin.GetOr(false) then
      sent == (if IsIn(data.userPk, reg.customers) && IsKey(data.userPk, reg.connections)
               then [Delivery(reg.connections[data.userPk.value], ChatFrame(record))]
               else if IsKey(userPk, reg.connections)
               then [Delivery(reg.connections[userPk.value], OfflineNotice(data.userPk, now))]
               else [])
    else AdminBroadcast(sent, reg, AdminFrame(record, userPk))
  }

  /** `sent` is one copy of `p` to each connected admin, visited in some order without repeats. */
  ghost predicate AdminBroadcast(sent: seq<Delivery>, reg: Registry, p: Payload) {
    exists visited: seq<UserPk> ::
      && Distinct(visited)
      && (forall a :: a in visited <==> a in reg.admins && a in reg.connections)
      && sent == Fanout(visited, reg.connections, p)
  }

  /**
   * Everything `process_message` sends for `data`, handled at time `now` with
   * next row id `id`: nothing for the control message or a missing user,
   * `Routed` for a saved row.
   */
  ghost predicate Handled(data: MessageData, now: Timestamp, users: map<UserPk, User>, id: nat,
                          userPk: Option<UserPk>, reg: Registry, sent: seq<Delivery>)
  {
    if Persists(data, users) then Routed(data, Record(data, id, now), userPk, reg, now, sent)
    else sent == []
  }

  /**
   * `process_message` for a session whose own id is `userPk`. The control
   * message does nothing. Any other frame is saved first (a missing user fails
   * with nothing saved or sent) and then routed; `sent` is what it sends.
   * `isAdmin` plays no part.
   */
  method ProcessMessage(manager: SupportManager, chat: ChatStore, data: MessageData,
                        userPk: Option<UserPk>, isAdmin: bool, now: Timestamp, ghost reg: Registry)
    returns (outcome: Outcome<ChatError>, ghost sent: seq<Delivery>)
    requires chat.Valid()
    requires manager.Snapshot() == reg
    modifies chat, manager.wire
    ensures chat.Valid() && chat.users == old(chat.users)
    ensures manager.wire.log == old(manager.wire.log) + sent
    ensures Handled(data, now, old(chat.users), old(chat.nextId), userPk, reg, sent)
    ensures !Persists(data, old(chat.users)) ==>
      && chat.messages == old(chat.messages) && chat.nextId == old(chat.nextId)
      && outcome == (if data.message == ConnectMessage then Pass else Fail(UserNotFound))
    ensures Persists(data, old(chat.users)) ==>
      && outcome == Pass
      && chat.messages == old(chat.messages) + [Record(data, old(chat.nextId), now)]
      && chat.nextId == old(chat.nextId) + 1
  {
    sent := [];
    if data.message == ConnectMessage {
      outcome := Pass;
      return;
    }
    ghost var before := manager.wire.log;
    var chatResponse := chat.Save(data.userPk, data.message, now, data.isFromAdmin.GetOr(false));
    if chatResponse.Failure? {
      outcome := Fail(chatResponse.error);
      return;
    }
    var response := chatResponse.value;
    if data.isFromAdmin.GetOr(false) {
      var targetCustomerPk := data.userPk;
      var success := manager.SendToSpecificCustomer(ChatFrame(response), targetCustomerPk);
      if !success {
        var _ := manager.SendToUser(OfflineNotice(targetCustomerPk, now), userPk);
      }
      sent := manager.wire.log[|before|..];
    } else {
      var _, visited := manager.SendToAllAdmins(response, userPk);
      sent := manager.wire.log[|before|..];
      assert sent == Fanout(visited, manager.allConnections, AdminFrame(response, userPk));
    }
    outcome := Pass;
  }

  /** The deliveries of consecutive steps, one after another. */
  function Concat(segments: seq<seq<Delivery>>): seq<Delivery> {
    if segments == [] then [] else segments[0] + Concat(segments[1..])
  }

  lemma ConcatSnoc(segments: seq<seq<Delivery>>, last: seq<Delivery>)
    ensures Concat(segments + [last]) == Concat(segments) + last
  {
    if segments != [] {
      assert (segments + [last])[1..] == segments[1..] + [last];
      ConcatSnoc(segments[1..], last);
    }
  }

  /** The rows saved by the receive loop for frames `rs`, with ids from `firstId`. */
  function Persisted(rs: seq<Received>, users: map<UserPk, User>, firstId: nat): (r: seq<ChatMessage>)
    ensures forall i :: 0 <= i < |r| ==> r[i].id == firstId + i && r[i].userPk in users
    ensures |r| <= |rs|
  {
    if rs == [] then []
    else
      var prev := Persisted(rs[..|rs| - 1], users, firstId);
      prev + FrameRecord(rs[|rs| - 1], users, firstId + |prev|)
  }

  /** The row one received frame saves, if any, with row id `id`. */
  function FrameRecord(r: Received, users: map<UserPk, User>, id: nat): seq<ChatMessage> {
    match r.frame
    case Decoded(data) => if Persists(data, users) then [Record(data, id, r.clock)] else []
    case BadJson => []
  }

  /**
   * What one frame of the receive loop sends: an undecodable frame and a failed
   * save are answered with an error frame on the session's own socket; any
   * other frame sends what `process_message` sends.
   */
  ghost predicate Answered(r: Received, users: map<UserPk, User>, id: nat, userPk: Option<UserPk>,
                           reg: Registry, websocket: Handle, sent: seq<Delivery>)
  {
    match r.frame
    case BadJson => sent == [Delivery(websocket, ErrorFrame(InvalidJson))]
    case Decoded(data) =>
      if data.message != ConnectMessage && !Persists(data, users)
      then sent == [Delivery(websocket, ErrorFrame(Raised(UserNotFound)))]
      else Handled(data, r.clock, users, id, userPk, reg, sent)
  }

  /**
   * The frames `rs` are answered one by one as `Answered` says, each with the
   * row id the loop has reached by then; `segments` holds one answer per frame.
   */
  ghost predicate LoopAnswered(rs: seq<Received>, users: map<UserPk, User>, firstId: nat, userPk: Option<UserPk>,
                               reg: Registry, websocket: Handle, segments: seq<seq<Delivery>>)
    decreases |rs|
  {
    && |segments| == |rs|
    && (rs != [] ==>
         var init := rs[..|rs| - 1];
         && LoopAnswered(init, users, firstId, userPk, reg, websocket, segments[..|rs| - 1])
         && Answered(rs[|rs| - 1], users, firstId + |Persisted(init, users, firstId)|, userPk, reg, websocket,
                     segments[|rs| - 1]))
  }

  /**
   * The frames of a session whose first frame decoded: the first one sends what
   * `process_message` sends, and only if its save did not fail do the later
   * frames follow, each answered as `Answered` says.
   */
  ghost predicate Served(first: Received, rest: seq<Received>, users: map<UserPk, User>, firstId: nat,
                         userPk: Option<UserPk>, reg: Registry, websocket: Handle, segments: seq<seq<Delivery>>)
    requires first.frame.Decoded?
  {
    var data := first.frame.data;
    && |segments| >= 1
    && Handled(data, first.clock, users, firstId, userPk, reg, segments[0])
    && (if data.message == ConnectMessage then LoopAnswered(rest, users, firstId, userPk, reg, websocket, segments[1..])
        else if Persists(data, users) then LoopAnswered(rest, users, firstId + 1, userPk, reg, websocket, segments[1..])
        else |segments| == 1)
  }

  /**
   * The rows saved by a whole session. An undecodable first frame, or a first
   * frame whose save fails, ends the session; otherwise the first frame is
   * handled like the rest.
   */
  function SessionRecords(inputs: seq<Received>, users: map<UserPk, User>, firstId: nat): seq<ChatMessage>
  {
    if inputs == [] then []
    else
      match inputs[0].frame
      case BadJson => []
      case Decoded(data) =>
        if data.message == ConnectMessage then Persisted(inputs[1..], users, firstId)
        else if Persists(data, users) then [Record(data, firstId, inputs[0].clock)] + Persisted(inputs[1..], users, firstId + 1)
        else []
  }

  /** The session's `user_pk`: taken from the first frame only. */
  function SessionUser(inputs: seq<Received>): Option<UserPk> {
    if inputs != [] && inputs[0].frame.Decoded? then inputs[0].frame.data.userPk else None
  }

  /** The session's `is_admin`: the identity lookup, false for an unknown user. */
  function SessionIsAdmin(inputs: seq<Received>, identity: UserPk -> Option<bool>): bool {
    var pk := SessionUser(inputs);
    Truthy(pk) && identity(pk.value).GetOr(false)
  }

  /** The registry while the session's frames are served: `reg` plus the session's registration, if any. */
  function SessionRegistry(reg: Registry, websocket: Handle, inputs: seq<Received>,
                           identity: UserPk -> Option<bool>): Registry
  {
    var pk := SessionUser(inputs);
    if !Truthy(pk) then reg
    else if SessionIsAdmin(inputs, identity) then
      reg.(connections := reg.connections[pk.value := websocket], admins := reg.admins + {pk.value})
    else
      reg.(connections := reg.connections[pk.value := websocket], customers := reg.customers + {pk.value})
  }

  /**
   * `websocket_endpoint` for one session on socket `websocket` that receives
   * `inputs` and then disconnects. A truthy first `user_pk` is registered with
   * the looked-up role and unregistered when the session ends; the store gains
   * exactly `SessionRecords`; `segments` are the sends of the frames served,
   * frame by frame, under the registry with the session registered.
   */
  method RunSession(manager: SupportManager, chat: ChatStore, websocket: Handle,
                    inputs: seq<Received>, identity: UserPk -> Option<bool>)
    returns (ghost segments: seq<seq<Delivery>>)
    requires chat.Valid()
    modifies manager, manager.wire, chat
    ensures chat.Valid() && chat.users == old(chat.users)
    ensures chat.messages == old(chat.messages) + SessionRecords(inputs, old(chat.users), old(chat.nextId))
    ensures chat.nextId == old(chat.nextId) + |SessionRecords(inputs, old(chat.users), old(chat.nextId))|
    ensures manager.wire.log == old(manager.wire.log) + Concat(segments)
    ensures (inputs == [] || inputs[0].frame.BadJson?) ==> segments == []
    ensures inputs != [] && inputs[0].frame.Decoded? ==>
      Served(inputs[0], inputs[1..], old(chat.users), old(chat.nextId), SessionUser(inputs),
             SessionRegistry(old(manager.Snapshot()), websocket, inputs, identity), websocket, segments)
    ensures !Truthy(SessionUser(inputs)) ==>
      && manager.allConnections == old(manager.allConnections)
      && manager.adminUserIds == old(manager.adminUserIds)
      && manager.customerUserIds == old(manager.customerUserIds)
    ensures Truthy(SessionUser(inputs)) ==>
      var pk := SessionUser(inputs).value;
      && manager.allConnections == old(manager.allConnections) - {pk}
      && (SessionIsAdmin(inputs, identity) ==>
            manager.adminUserIds == old(manager.adminUserIds) - {pk}
            && manager.customerUserIds == old(manager.customerUserIds))
      && (!SessionIsAdmin(inputs, identity) && pk in old(manager.adminUserIds) ==>
            manager.adminUserIds == old(manager.adminUserIds) - {pk}
            && manager.customerUserIds == old(manager.customerUserIds) + {pk})
      && (!SessionIsAdmin(inputs, identity) && pk !in old(manager.adminUserIds) ==>
            manager.adminUserIds == old(manager.adminUserIds)
            && manager.customerUserIds == old(manager.customerUserIds) - {pk})
  {
    segments := [];
    var userPk: Option<UserPk> := None;
    var isAdmin := false;
    if inputs != [] && inputs[0].frame.Decoded? {
      var first := inputs[0];
      userPk := first.frame.data.userPk;
      if Truthy(userPk) {
        var userData := identity(userPk.value);
        isAdmin := userData.GetOr(false);
        manager.Connect(websocket, userPk.value, isAdmin);
      }
      assert manager.Snapshot() == SessionRegistry(old(manager.Snapshot()), websocket, inputs, identity);
      assert inputs == [first] + inputs[1..];
      segments := ServeFrames(manager, chat, websocket, first, inputs[1..], userPk, isAdmin);
      if Truthy(userPk) {
        manager.Disconnect(userPk.value);
      }
    }
  }

  /**
   * The frames of a registered (or unregistered) session: the first one, and
   * then the receive loop unless the first one's save failed.
   */
  method ServeFrames(manager: SupportManager, chat: ChatStore, websocket: Handle,
                     first: Received, rest: seq<Received>, userPk: Option<UserPk>, isAdmin: bool)
    returns (ghost segments: seq<seq<Delivery>>)
    requires first.frame.Decoded?
    requires chat.Valid()
    modifies manager.wire, chat
    ensures chat.Valid() && chat.users == old(chat.users)
    ensures chat.messages == old(chat.messages) + SessionRecords([first] + rest, old(chat.users), old(chat.nextId))
    ensures chat.nextId == old(chat.nextId) + |SessionRecords([first] + rest, old(chat.users), old(chat.nextId))|
    ensures manager.wire.log == old(manager.wire.log) + Concat(segments)
    ensures Served(first, rest, old(chat.users), old(chat.nextId), userPk, manager.Snapshot(), websocket, segments)
  {
    ghost var users, firstId, stored, log0, reg := chat.users, chat.nextId, chat.messages, manager.wire.log, manager.Snapshot();
    ghost var head := FrameRecord(first, users, firstId);
    var outcome: Outcome<ChatError>;
    ghost var sent: seq<Delivery>;
    outcome, sent := ProcessMessage(manager, chat, first.frame.data, userPk, isAdmin, first.clock, reg);
    if outcome.Pass? {
      assert chat.messages == stored + head && chat.nextId == firstId + |head|;
      ghost var later := ReceiveLoop(manager, chat, websocket, rest, userPk, isAdmin);
      ServedThenLoop(first, rest, users, firstId, userPk, reg, websocket, sent, later);
      AppendAssoc(stored, head, Persisted(rest, users, firstId + |head|));
      AppendAssoc(log0, sent, Concat(later));
      segments := [sent] + later;
    } else {
      ServedAlone(first, rest, users, firstId, userPk, reg, websocket, sent);
      segments := [sent];
    }
  }

  /** A session whose first frame is the control message or saved goes on to the receive loop. */
  lemma ServedThenLoop(first: Received, rest: seq<Received>, users: map<UserPk, User>, firstId: nat,
                       userPk: Option<UserPk>, reg: Registry, websocket: Handle,
                       sent: seq<Delivery>, later: seq<seq<Delivery>>)
    requires first.frame.Decoded?
    requires first.frame.data.message == ConnectMessage || Persists(first.frame.data, users)
    requires Handled(first.frame.data, first.clock, users, firstId, userPk, reg, sent)
    requires LoopAnswered(rest, users, firstId + |FrameRecord(first, users, firstId)|, userPk, reg, websocket, later)
    ensures Served(first, rest, users, firstId, userPk, reg, websocket, [sent] + later)
    ensures Concat([sent] + later) == sent + Concat(later)
    ensures SessionRecords([first] + rest, users, firstId)
         == FrameRecord(first, users, firstId) + Persisted(rest, users, firstId + |FrameRecord(first, users, firstId)|)
  {
    assert ([first] + rest)[0] == first && ([first] + rest)[1..] == rest;
    assert ([sent] + later)[0] == sent && ([sent] + later)[1..] == later;
  }

  /** A session whose first save fails serves that frame alone and saves nothing. */
  lemma ServedAlone(first: Received, rest: seq<Received>, users: map<UserPk, User>, firstId: nat,
                    userPk: Option<UserPk>, reg: Registry, websocket: Handle, sent: seq<Delivery>)
    requires first.frame.Decoded?
    requires first.frame.data.message != ConnectMessage && !Persists(first.frame.data, users)
    requires Handled(first.frame.data, first.clock, users, firstId, userPk, reg, sent)
    ensures Served(first, rest, users, firstId, userPk, reg, websocket, [sent])
    ensures Concat([sent]) == sent
    ensures SessionRecords([first] + rest, users, firstId) == []
  {
    assert ([first] + rest)[0] == first;
    assert [sent][1..] == [];
  }

  /** One more frame extends the rows saved so far. */
  lemma PersistedSnoc(rs: seq<Received>, i: nat, users: map<UserPk, User>, firstId: nat)
    requires i < |rs|
    ensures Persisted(rs[..i + 1], users, firstId)
         == Persisted(rs[..i], users, firstId) + FrameRecord(rs[i], users, firstId + |Persisted(rs[..i], users, firstId)|)
  {
    TakeSnoc(rs, i);
  }

  /** One more answered frame extends the answers of the loop so far. */
  lemma LoopAnsweredSnoc(rs: seq<Received>, i: nat, users: map<UserPk, User>, firstId: nat,
                         userPk: Option<UserPk>, reg: Registry, websocket: Handle,
                         segments: seq<seq<Delivery>>, sent: seq<Delivery>)
    requires i < |rs|
    requires LoopAnswered(rs[..i], users, firstId, userPk, reg, websocket, segments)
    requires Answered(rs[i], users, firstId + |Persisted(rs[..i], users, firstId)|, userPk, reg, websocket, sent)
    ensures LoopAnswered(rs[..i + 1], users, firstId, userPk, reg, websocket, segments + [sent])
  {
    TakeSnoc(rs, i);
    assert (segments + [sent])[..i] == segments;
  }

  /**
   * One pass of the receive loop: an undecodable frame is answered with
   * "Invalid JSON format" on the session's own socket; a decoded one goes to
   * `process_message`, and a failed save is answered with the error on the
   * session's own socket.
   */
  method ReceiveOne(manager: SupportManager, chat: ChatStore, websocket: Handle,
                    received: Received, userPk: Option<UserPk>, isAdmin: bool, ghost reg: Registry)
    returns (ghost sent: seq<Delivery>)
    requires chat.Valid()
    requires manager.Snapshot() == reg
    modifies manager.wire, chat
    ensures chat.Valid() && chat.users == old(chat.users)
    ensures chat.messages == old(chat.messages) + FrameRecord(received, old(chat.users), old(chat.nextId))
    ensures chat.nextId == old(chat.nextId) + |FrameRecord(received, old(chat.users), old(chat.nextId))|
    ensures manager.wire.log == old(manager.wire.log) + sent
    ensures Answered(received, old(chat.users), old(chat.nextId), userPk, reg, websocket, sent)
  {
    match received.frame {
      case BadJson =>
        manager.wire.SendText(websocket, ErrorFrame(InvalidJson));
        sent := [Delivery(websocket, ErrorFrame(InvalidJson))];
      case Decoded(data) =>
        var outcome: Outcome<ChatError>;
        outcome, sent := ProcessMessage(manager, chat, data, userPk, isAdmin, received.clock, reg);
        if outcome.Fail? {
          manager.wire.SendText(websocket, ErrorFrame(Raised(outcome.error)));
          sent := sent + [Delivery(websocket, ErrorFrame(Raised(outcome.error)))];
        }
    }
  }

  /**
   * The `while True` loop of `websocket_endpoint` over the frames after the
   * first: every frame is handled in order, `segments[i]` is what frame `i`
   * sends, and the store gains exactly `Persisted(rest, ...)`. The registry is
   * only read.
   */
  method ReceiveLoop(manager: SupportManager, chat: ChatStore, websocket: Handle,
                     rest: seq<Received>, userPk: Option<UserPk>, isAdmin: bool)
    returns (ghost segments: seq<seq<Delivery>>)
    requires chat.Valid()
    modifies manager.wire, chat
    ensures chat.Valid() && chat.users == old(chat.users)
    ensures chat.messages == old(chat.messages) + Persisted(rest, old(chat.users), old(chat.nextId))
    ensures chat.nextId == old(chat.nextId) + |Persisted(rest, old(chat.users), old(chat.nextId))|
    ensures manager.wire.log == old(manager.wire.log) + Concat(segments)
    ensures LoopAnswered(rest, old(chat.users), old(chat.nextId), userPk, manager.Snapshot(), websocket, segments)
  {
    segments := [];
    ghost var users, firstId, reg := chat.users, chat.nextId, manager.Snapshot();
    var i := 0;
    while i < |rest|
      invariant 0 <= i <= |rest|
      invariant LoopState(manager, chat, rest, i, users, firstId, reg, old(chat.messages), old(manager.wire.log),
                          userPk, websocket, segments)
    {
      segments := ReceiveNext(manager, chat, websocket, rest, i, userPk, isAdmin,
                              users, firstId, reg, old(chat.messages), old(manager.wire.log), segments);
      i := i + 1;
    }
    assert rest[..i] == rest;
  }

  /**
   * The state of the receive loop after the frames `rest[..i]`, started on a
   * store with rows `base`, users `users` and next id `firstId`, a log `baseLog`
   * and the registry `reg`, which the loop only reads.
   */
  ghost predicate LoopState(manager: SupportManager, chat: ChatStore, rest: seq<Received>, i: nat,
                            users: map<UserPk, User>, firstId: nat, reg: Registry,
                            base: seq<ChatMessage>, baseLog: seq<Delivery>, userPk: Option<UserPk>,
                            websocket: Handle, segments: seq<seq<Delivery>>)
    requires i <= |rest|
    reads manager, manager.wire, chat
  {
    && chat.Valid() && chat.users == users && manager.Snapshot() == reg
    && chat.messages == base + Persisted(rest[..i], users, firstId)
    && chat.nextId == firstId + |Persisted(rest[..i], users, firstId)|
    && manager.wire.log == baseLog + Concat(segments)
    && LoopAnswered(rest[..i], users, firstId, userPk, reg, websocket, segments)
  }

  /** One pass of the receive loop, on frame `rest[i]`: the loop's state moves from `i` to `i + 1`. */
  method ReceiveNext(manager: SupportManager, chat: ChatStore, websocket: Handle,
                     rest: seq<Received>, i: nat, userPk: Option<UserPk>, isAdmin: bool,
                     ghost users: map<UserPk, User>, ghost firstId: nat, ghost reg: Registry,
                     ghost base: seq<ChatMessage>, ghost baseLog: seq<Delivery>, ghost segments: seq<seq<Delivery>>)
    returns (ghost segments': seq<seq<Delivery>>)
    requires i < |rest|
    requires LoopState(manager, chat, rest, i, users, firstId, reg, base, baseLog, userPk, websocket, segments)
    modifies manager.wire, chat
    ensures LoopState(manager, chat, rest, i + 1, users, firstId, reg, base, baseLog, userPk, websocket, segments')
    ensures segments' == segments + [segments'[i]]
  {
    ghost var sent := ReceiveOne(manager, chat, websocket, rest[i], userPk, isAdmin, reg);
    LoopStep(rest, i, users, firstId, userPk, reg, websocket, base, baseLog,
             segments, chat.messages, manager.wire.log, sent);
    segments' := segments + [sent];
  }

  /** One more frame of the receive loop: the saved rows, the log and the answers all grow by that frame's part. */
  lemma LoopStep(rest: seq<Received>, i: nat, users: map<UserPk, User>, firstId: nat,
                 userPk: Option<UserPk>, reg: Registry, websocket: Handle,
                 base: seq<ChatMessage>, baseLog: seq<Delivery>, segments: seq<seq<Delivery>>,
                 messages: seq<ChatMessage>, log: seq<Delivery>, sent: seq<Delivery>)
    requires i < |rest|
    requires LoopAnswered(rest[..i], users, firstId, userPk, reg, websocket, segments)
    requires messages == base + Persisted(rest[..i], users, firstId)
                      + FrameRecord(rest[i], users, firstId + |Persisted(rest[..i], users, firstId)|)
    requires log == baseLog + Concat(segments) + sent
    requires Answered(rest[i], users, firstId + |Persisted(rest[..i], users, firstId)|, userPk, reg, websocket, sent)
    ensures messages == base + Persisted(rest[..i + 1], users, firstId)
    ensures |Persisted(rest[..i + 1], users, firstId)|
         == |Persisted(rest[..i], users, firstId)| + |FrameRecord(rest[i], users, firstId + |Persisted(rest[..i], users, firstId)|)|
    ensures log == baseLog + Concat(segments + [sent])
    ensures LoopAnswered(rest[..i + 1], users, firstId, userPk, reg, websocket, segments + [sent])
  {
    PersistedSnoc(rest, i, users, firstId);
    var prev := Persisted(rest[..i], users, firstId);
    AppendAssoc(base, prev, FrameRecord(rest[i], users, firstId + |prev|));
    AppendAssoc(baseLog, Concat(segments), sent);
    LoopAnsweredSnoc(rest, i, users, firstId, userPk, reg, websocket, segments, sent);
    ConcatSnoc(segments, sent);
  }

  /**
   * A reconnect under the other role leaves the id in both role sets, so the
   * design's disjointness invariant does not hold for the code as written.
   */
  method ReconnectUnderOtherRole() returns (manager: SupportManager)
    ensures 7 in manager.adminUserIds && 7 in manager.customerUserIds
    ensures fresh(manager) && fresh(manager.wire)
    ensures !manager.RolesDisjoint()
  {
    var wire := new Wire();
    manager := new SupportManager(wire);
    manager.Connect(1, 7, true);
    manager.Connect(2, 7, false);
  }
}
