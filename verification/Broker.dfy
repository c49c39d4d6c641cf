/**
 The shared state of `mqtt_server::implementation` and the operations on it. Each
 operation that runs under one of the two mutexes is a function of the session map,
 and a method of the class that updates the fields the same way; the interleavings of
 many handler threads are built from the same functions in module BrokerRuns.
 */
module Broker {
  import opened Sequences
  import opened RemainingLength
  import opened Packets
  import opened Topics

  type Sock = nat
  type Id = bytes

  datatype Session = Session(sock: Sock, filters: seq<bytes>)

  type Sessions = map<Id, Session>

  predicate Wants(session: Session, topic: bytes) {
    exists i :: 0 <= i < |session.filters| && Matches(session.filters[i], topic)
  }

  /** `order` lists, once each, the ids of the sessions with at least one matching filter. */
  predicate Selects(sessions: Sessions, topic: bytes, order: seq<Id>) {
    && (forall i :: 0 <= i < |order| ==> order[i] in sessions && Wants(sessions[order[i]], topic))
    && (forall i, j :: 0 <= i < j < |order| ==> order[i] != order[j])
    && (forall id :: id in sessions && Wants(sessions[id], topic) ==> id in order)
  }

  function Sockets(sessions: Sessions, order: seq<Id>): (socks: seq<Sock>)
    requires forall i :: 0 <= i < |order| ==> order[i] in sessions
    ensures |socks| == |order|
    ensures forall i :: 0 <= i < |order| ==> socks[i] == sessions[order[i]].sock
  {
    seq(|order|, i requires 0 <= i < |order| => sessions[order[i]].sock)
  }

  function Subscribed(sessions: Sessions, id: Id, filters: seq<bytes>): Sessions {
    if id in sessions then sessions[id := sessions[id].(filters := sessions[id].filters + filters)] else sessions
  }

  /** One return code 0 for each filter that was added; none when the session is gone. */
  function ReturnCodes(sessions: Sessions, id: Id, n: nat): (codes: seq<byte>)
    ensures |codes| <= n
  {
    if id in sessions then seq(n, _ => 0) else []
  }

  function Removed(sessions: Sessions, id: Id): Sessions {
    sessions - {id}
  }

  /** The socket that `remove_session` shuts down: the one of the entry it erases. */
  function Severed(sessions: Sessions, id: Id): set<Sock> {
    if id in sessions then {sessions[id].sock} else {}
  }

  function AllSockets(sessions: Sessions): set<Sock> {
    set id | id in sessions :: sessions[id].sock
  }

  class Implementation {
    var sessions: Sessions
    var history: seq<Message>
    var open: set<Sock>  // the sockets the process has open

    constructor ()
      ensures sessions == map[] && history == [] && open == {}
    {
      sessions, history, open := map[], [], {};
    }

    /** A connection takes the id over, whoever had it. */
    method Register(id: Id, sock: Sock)
      modifies this`sessions
      ensures sessions == old(sessions)[id := Session(sock, [])]
    {
      sessions := sessions[id := Session(sock, [])];
    }

    method RemoveSession(id: Id)
      modifies this`sessions, this`open
      ensures sessions == Removed(old(sessions), id)
      ensures open == old(open) - Severed(old(sessions), id)
    {
      if id in sessions {
        open := open - {sessions[id].sock};
        sessions := sessions - {id};
      }
    }

    method AddFilters(id: Id, filters: seq<bytes>) returns (codes: seq<byte>)
      modifies this`sessions
      ensures sessions == Subscribed(old(sessions), id, filters)
      ensures codes == ReturnCodes(old(sessions), id, |filters|)
    {
      codes := [];
      if id in sessions {
        var i := 0;
        assert sessions[id].filters + filters[..0] == sessions[id].filters;
        while i < |filters|
          invariant 0 <= i <= |filters| && id in sessions
          invariant sessions == Subscribed(old(sessions), id, filters[..i])
          invariant codes == seq(i, _ => 0)
        {
          var s := sessions[id];
          assert filters[..i + 1] == filters[..i] + [filters[i]];
          ConcatAssociative(old(sessions)[id].filters, filters[..i], [filters[i]]);
          sessions := sessions[id := s.(filters := s.filters + [filters[i]])];
          codes := codes + [0];
          i := i + 1;
        }
        assert filters[..i] == filters;
      }
    }

    method Wanted(session: Session, topic: bytes) returns (b: bool)
      ensures b == Wants(session, topic)
    {
      var i := 0;
      while i < |session.filters|
        invariant 0 <= i <= |session.filters|
        invariant forall j :: 0 <= j < i ==> !Matches(session.filters[j], topic)
      {
        var hit := TopicMatches(session.filters[i], topic);
        if hit {
          return true;
        }
        i := i + 1;
      }
      b := false;
    }

    /** The locked half of `route_publish`: each session with a matching filter, once. */
    method SnapshotTargets(topic: bytes) returns (targets: seq<Sock>)
      ensures exists order :: Selects(sessions, topic, order) && targets == Sockets(sessions, order)
    {
      targets := [];
      ghost var order: seq<Id> := [];
      var rest := sessions.Keys;
      while rest != {}
        invariant rest <= sessions.Keys
        invariant forall i :: 0 <= i < |order| ==>
                  order[i] in sessions && order[i] !in rest && Wants(sessions[order[i]], topic)
        invariant forall i, j :: 0 <= i < j < |order| ==> order[i] != order[j]
        invariant forall id :: id in sessions && id !in rest && Wants(sessions[id], topic) ==> id in order
        invariant targets == Sockets(sessions, order)
        decreases |rest|
      {
        var id :| id in rest;
        rest := rest - {id};
        var wanted := Wanted(sessions[id], topic);
        if wanted {
          targets := targets + [sessions[id].sock];
          order := order + [id];
        }
      }
    }

    method Record(m: Message)
      modifies this`history
      ensures history == old(history) + [m]
    {
      history := history + [m];
    }

    method ClearMessages()
      modifies this`history
      ensures history == []
    {
      history := [];
    }

    /** The locked part of `stop`: every session's socket is shut, then the map is emptied. */
    method Sweep()
      modifies this`sessions, this`open
      ensures sessions == map[] && open == old(open) - AllSockets(old(sessions))
    {
      var rest := sessions.Keys;
      while rest != {}
        invariant rest <= sessions.Keys && sessions == old(sessions)
        invariant open == old(open) - (set id | id in sessions && id !in rest :: sessions[id].sock)
        decreases |rest|
      {
        var id :| id in rest;
        ghost var before := set i | i in sessions && i !in rest :: sessions[i].sock;
        rest := rest - {id};
        assert (set i | i in sessions && i !in rest :: sessions[i].sock) == before + {sessions[id].sock};
        open := open - {sessions[id].sock};
      }
      assert (set id | id in sessions && id !in rest :: sessions[id].sock) == AllSockets(sessions);
      sessions := map[];
    }

    /**
     `handle_subscribe` run without interruption: a body that is not in the grammar ends
     the session and the connection, any other is answered with one code per filter.
     */
    method HandleSubscribe(sock: Sock, data: bytes, id: Id) returns (reply: Option<bytes>)
      modifies this`sessions, this`open
      ensures match DecodeSubscribe(data)
              case None =>
                && reply == None && sessions == Removed(old(sessions), id)
                && open == old(open) - Severed(old(sessions), id) - {sock}
              case Some(s) =>
                && sessions == Subscribed(old(sessions), id, Filters(s.entries)) && open == old(open)
                && reply == Some(EncodeSuback(s.packetId, ReturnCodes(old(sessions), id, |s.entries|)))
    {
      var r := DecodeSubscribeLoop(data);
      if r.None? {
        RemoveSession(id);
        open := open - {sock};
        return None;
      }
      var codes := AddFilters(id, Filters(r.value.entries));
      reply := Some(EncodeSuback(r.value.packetId, codes));
    }

    /** `handle_publish` up to the sends: what is recorded, and what goes to which sockets. */
    method HandlePublish(data: bytes) returns (frame: bytes, targets: seq<Sock>)
      modifies this`history
      ensures match DecodePublish(data)
              case None => history == old(history) && targets == []
              case Some(m) =>
                && history == old(history) + [m] && frame == EncodePublish(m)
                && exists order :: Selects(sessions, m.topic, order) && targets == Sockets(sessions, order)
    {
      frame, targets := [], [];
      var decoded := DecodePublish(data);
      if decoded.Some? {
        Record(decoded.value);
        targets := SnapshotTargets(decoded.value.topic);
        frame := EncodePublish(decoded.value);
      }
    }
  }
}
