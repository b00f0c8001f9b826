/**
 * The realtime fan-out of incident events: which rooms each connected socket
 * belongs to, how `join:incident` / `leave:incident` change that, and how
 * many copies of an emitted event each socket receives. Every event goes to
 * all sockets (`io.emit`); an event whose payload carries an incident with an
 * id is sent a second time to the room `incident:<id>`.
 */
module Fanout {
  import opened Wrappers
  import opened Schema

  type SocketId = string
  type Room = string

  const NEW_EVENT: string := "incident:new"
  const UPDATE_EVENT: string := "incident:update"
  const DELETE_EVENT: string := "incident:delete"
  const ROOM_PREFIX: string := "incident:"

  /** `{ incident }` for new and updated incidents, `{ incidentId }` for deletions. */
  datatype Payload = IncidentPayload(incident: Incident) | IdPayload(incidentId: Id)

  datatype Event = Event(name: string, data: Payload)

  function RoomName(incidentId: Id): Room {
    ROOM_PREFIX + incidentId
  }

  function NewIncidentEvent(inc: Incident): Event {
    Event(NEW_EVENT, IncidentPayload(inc))
  }

  function UpdatedIncidentEvent(inc: Incident): Event {
    Event(UPDATE_EVENT, IncidentPayload(inc))
  }

  function DeletedIncidentEvent(incidentId: Id): Event {
    Event(DELETE_EVENT, IdPayload(incidentId))
  }

  /**
   * The room an event is also sent to: present only when the payload has an
   * `incident` whose id is truthy (a non-empty string).
   */
  function TopicOf(data: Payload): (r: Option<Id>)
    ensures r.Some? <==> data.IncidentPayload? && data.incident.id != ""
    ensures r.Some? ==> r.value == data.incident.id
  {
    match data
    case IncidentPayload(inc) => if inc.id != "" then Some(inc.id) else None
    case IdPayload(_) => None
  }

  /** Sockets that are members of `room`. */
  function Members(rooms: map<SocketId, set<Room>>, room: Room): (m: set<SocketId>)
    ensures forall s :: s in m <==> s in rooms && room in rooms[s]
  {
    set s | s in rooms && room in rooms[s]
  }

  /**
   * How many copies of `e` socket `s` should receive: none when it is not
   * connected, two when it is in the event's incident room, one otherwise.
   */
  function Copies(rooms: map<SocketId, set<Room>>, e: Event, s: SocketId): nat {
    if s !in rooms then 0
    else if TopicOf(e.data).Some? && RoomName(TopicOf(e.data).value) in rooms[s] then 2
    else 1
  }

  /**
   * The multiset of sockets an emit delivers to: each connected socket once
   * through the global broadcast, plus once more for each member of the
   * event's incident room.
   */
  function Recipients(rooms: map<SocketId, set<Room>>, e: Event): (r: multiset<SocketId>)
    ensures forall s :: r[s] == Copies(rooms, e, s)
  {
    var global := multiset(rooms.Keys);
    match TopicOf(e.data)
    case Some(id) => global + multiset(Members(rooms, RoomName(id)))
    case None => global
  }

  /** Distinct incidents have distinct rooms. */
  lemma RoomNameInjective(a: Id, b: Id)
    requires RoomName(a) == RoomName(b)
    ensures a == b
  {
    assert a == RoomName(a)[|ROOM_PREFIX|..];
    assert b == RoomName(b)[|ROOM_PREFIX|..];
  }

  /** The three controller events carry three distinct names. */
  lemma EventNamesDistinct(inc: Incident, id: Id)
    ensures NewIncidentEvent(inc).name != UpdatedIncidentEvent(inc).name
    ensures UpdatedIncidentEvent(inc).name != DeletedIncidentEvent(id).name
    ensures NewIncidentEvent(inc).name != DeletedIncidentEvent(id).name
  {
    assert NEW_EVENT[9] == 'n' && UPDATE_EVENT[9] == 'u' && DELETE_EVENT[9] == 'd';
  }

  /** A deletion reaches each connected socket exactly once, room member or not. */
  lemma DeleteDeliveredOnce(rooms: map<SocketId, set<Room>>, id: Id, s: SocketId)
    requires s in rooms
    ensures Recipients(rooms, DeletedIncidentEvent(id))[s] == 1
  {
  }

  /** A socket in the room of an incident receives its update twice: at-least-once delivery. */
  lemma UpdateDeliveredTwiceToMembers(rooms: map<SocketId, set<Room>>, inc: Incident, s: SocketId)
    requires s in rooms && RoomName(inc.id) in rooms[s] && inc.id != ""
    ensures Recipients(rooms, UpdatedIncidentEvent(inc))[s] == 2
    ensures Recipients(rooms, NewIncidentEvent(inc))[s] == 2
  {
  }

  /** A socket that never joined the room gets the update once; one that is not connected gets nothing. */
  lemma UpdateDeliveredOnceToOthers(rooms: map<SocketId, set<Room>>, inc: Incident, s: SocketId)
    ensures s in rooms && RoomName(inc.id) !in rooms[s] ==> Recipients(rooms, UpdatedIncidentEvent(inc))[s] == 1
    ensures s !in rooms ==> Recipients(rooms, UpdatedIncidentEvent(inc))[s] == 0
  {
  }

  /** Joining a room, then emitting an update of that incident, delivers it to the joiner two times. */
  lemma JoinThenUpdate(rooms: map<SocketId, set<Room>>, s: SocketId, inc: Incident)
    requires s in rooms && inc.id != ""
    ensures var joined := rooms[s := rooms[s] + {RoomName(inc.id)}];
            Recipients(joined, UpdatedIncidentEvent(inc))[s] == 2
  {
  }

  /**
   * The socket.io server's room registry: one entry per connected socket,
   * holding the rooms it has joined.
   */
  class Broker {
    var rooms: map<SocketId, set<Room>>

    constructor ()
      ensures rooms == map[]
    {
      rooms := map[];
    }

    /** A new connection starts in no incident room. */
    method Connect(s: SocketId)
      modifies this
      ensures rooms == old(rooms)[s := {}]
    {
      rooms := rooms[s := {}];
    }

    /** Membership is not persisted: a disconnected socket leaves every room. */
    method Disconnect(s: SocketId)
      modifies this
      ensures rooms == old(rooms) - {s}
    {
      rooms := rooms - {s};
    }

    /** `join:incident`: adds the room `incident:<id>`; joining twice is the same as once. */
    method JoinIncident(s: SocketId, incidentId: Id)
      requires s in rooms
      modifies this
      ensures rooms.Keys == old(rooms).Keys
      ensures rooms[s] == old(rooms)[s] + {RoomName(incidentId)}
      ensures forall t :: t in rooms && t != s ==> rooms[t] == old(rooms)[t]
    {
      rooms := rooms[s := rooms[s] + {RoomName(incidentId)}];
    }

    /** `leave:incident`: removes the room `incident:<id>` and keeps every other room. */
    method LeaveIncident(s: SocketId, incidentId: Id)
      requires s in rooms
      modifies this
      ensures rooms.Keys == old(rooms).Keys
      ensures rooms[s] == old(rooms)[s] - {RoomName(incidentId)}
      ensures forall t :: t in rooms && t != s ==> rooms[t] == old(rooms)[t]
    {
      rooms := rooms[s := rooms[s] - {RoomName(incidentId)}];
    }

    /**
     * `emitIncidentEvent`: the sockets that receive the event, with
     * multiplicity. Every connected socket is among them.
     */
    method Emit(e: Event) returns (delivered: multiset<SocketId>)
      ensures delivered == Recipients(rooms, e)
      ensures forall s :: s in rooms ==> delivered[s] >= 1
      ensures forall s :: delivered[s] > 0 ==> s in rooms
    {
      delivered := multiset(rooms.Keys);
      var topic := TopicOf(e.data);
      if topic.Some? {
        delivered := delivered + multiset(Members(rooms, RoomName(topic.value)));
      }
    }
  }
}
