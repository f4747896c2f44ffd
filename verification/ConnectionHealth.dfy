/**
 Ping and pong bookkeeping of the manager. Each call runs as one atomic step; the log remembers the calls
 so that the contracts can speak of whole runs.
 */
module ConnectionHealth {
  import opened Wrappers
  import opened DownloadSession

  type ClusterId = nat

  datatype Role = Master | FileDownload | FileUpload

  datatype Connection = Connection(role: Role, cluster: ClusterId)

  datatype Event =
    | Registered(c: ConnectionId)           // a master connection
    | Attached(c: ConnectionId)             // a download or upload connection
    | Heard(c: ConnectionId)                // its pong
    | Checked(pinged: set<ConnectionId>)    // one `check_pings`, and whom it pinged
    | Removed(c: ConnectionId)

  function SilentAfter(event: Event, c: ConnectionId, silent: nat): nat {
    if event == Registered(c) || event == Heard(c) then 0
    else if event.Checked? then silent + 1
    else silent
  }

  /** How many times `check_pings` has run since the connection last answered or was registered. */
  function SilentChecks(log: seq<Event>, c: ConnectionId): nat {
    if log == [] then 0 else SilentAfter(log[|log|-1], c, SilentChecks(log[..|log|-1], c))
  }

  function Checks(log: seq<Event>): nat {
    if log == [] then 0 else Checks(log[..|log|-1]) + (if log[|log|-1].Checked? then 1 else 0)
  }

  /** `SilentChecks` counts exactly the checks behind the last pong or registration. */
  lemma {:induction false} SilentSince(log: seq<Event>, c: ConnectionId) returns (at: nat)
    ensures at <= |log| && (at > 0 ==> log[at-1] == Registered(c) || log[at-1] == Heard(c))
    ensures forall i :: at <= i < |log| ==> log[i] != Registered(c) && log[i] != Heard(c)
    ensures SilentChecks(log, c) == Checks(log[at..])
  {
    if log == [] {
      at := 0;
    } else {
      var rest, last := log[..|log|-1], log[|log|-1];
      if last == Registered(c) || last == Heard(c) {
        at := |log|;
      } else {
        at := SilentSince(rest, c);
        assert log[at..][..|log[at..]|-1] == rest[at..];
        assert forall i :: at <= i < |rest| ==> log[i] == rest[i];
      }
    }
  }

  predicate SteadyAfter(event: Event, c: ConnectionId, steady: bool) {
    || event == Registered(c) || event == Heard(c)
    || (steady && event != Removed(c) && (event.Checked? ==> c in event.pinged))
  }

  /** Found online by every check since its last pong or its registration, and not removed. */
  predicate Steady(log: seq<Event>, c: ConnectionId) {
    log != [] && SteadyAfter(log[|log|-1], c, Steady(log[..|log|-1], c))
  }

  lemma AppendLog(log: seq<Event>, event: Event)
    ensures forall c :: SilentChecks(log + [event], c) == SilentAfter(event, c, SilentChecks(log, c))
    ensures forall c :: Steady(log + [event], c) == SteadyAfter(event, c, Steady(log, c))
  {
    assert (log + [event])[..|log|] == log;
  }

  /** Connection ids are drawn once. */
  predicate Unused(log: seq<Event>, c: ConnectionId) {
    forall i :: 0 <= i < |log| ==> log[i] != Registered(c) && log[i] != Heard(c)
  }

  lemma {:induction false} UnusedNotSteady(log: seq<Event>, c: ConnectionId)
    requires Unused(log, c)
    ensures !Steady(log, c)
  {
    if log != [] {
      UnusedNotSteady(log[..|log|-1], c);
    }
  }

  /** What the maps say of one connection, against what has happened to it. */
  predicate Tracked(ping: bool, pong: bool, missed: nat, silent: nat, steady: bool) {
    && (ping && !pong ==> silent >= 1)
    && missed <= 1
    && (missed == 1 ==> silent >= 2 && !pong)
    && (steady ==>
          && silent <= 2
          && (silent == 0 ==> pong)
          && (silent >= 1 ==> ping && !pong)
          && missed == (if silent == 2 then 1 else 0))
  }

  class Health {
    var connectionMap: map<ConnectionId, Connection>
    var online: set<ClusterId>               // clusters with a sender installed
    var pingTimes: set<ConnectionId>         // the instants themselves are only logged
    var pongTimes: set<ConnectionId>
    var missedPongs: map<ConnectionId, nat>
    ghost var log: seq<Event>

    function Missed(c: ConnectionId): nat
      reads this
    {
      if c in missedPongs then missedPongs[c] else 0
    }

    /** The tracking maps hold no connection that is gone, and agree with the log about the others. */
    ghost predicate Valid()
      reads this
    {
      && pingTimes <= connectionMap.Keys && pongTimes <= connectionMap.Keys && missedPongs.Keys <= connectionMap.Keys
      && (forall c :: c in pingTimes ==> connectionMap[c].role.Master?)
      && (forall c :: c in connectionMap ==> Good(c))
    }

    ghost predicate Good(c: ConnectionId)
      reads this
      requires c in connectionMap
    {
      Tracked(c in pingTimes, c in pongTimes, Missed(c), SilentChecks(log, c), Steady(log, c))
    }

    constructor ()
      ensures Valid() && log == [] && connectionMap == map[]
    {
      connectionMap, online, pingTimes, pongTimes, missedPongs := map[], {}, {}, {}, map[];
      log := [];
    }

    ghost method Note(event: Event)
      modifies this`log
      ensures log == old(log) + [event]
      ensures forall c :: SilentChecks(log, c) == SilentAfter(event, c, SilentChecks(old(log), c))
      ensures forall c :: Steady(log, c) == SteadyAfter(event, c, Steady(old(log), c))
    {
      AppendLog(log, event);
      log := log + [event];
    }

    /** `register_connection`, for a fresh connection id. */
    method Register(c: ConnectionId, cluster: ClusterId)
      requires Valid() && c !in connectionMap
      modifies this
      ensures Valid() && log == old(log) + [Registered(c)]
      ensures connectionMap == old(connectionMap)[c := Connection(Master, cluster)]
      ensures online == old(online) + {cluster} && pongTimes == old(pongTimes) + {c}
      ensures pingTimes == old(pingTimes) && missedPongs == old(missedPongs)
    {
      online := online + {cluster};
      connectionMap := connectionMap[c := Connection(Master, cluster)];
      pongTimes := pongTimes + {c};
      Note(Registered(c));
      hide SilentChecks, Steady;
    }

    /** A download or upload connection enters the map without a pong entry. */
    method Attach(c: ConnectionId, role: Role, cluster: ClusterId)
      requires Valid() && c !in connectionMap && !role.Master? && Unused(log, c)
      modifies this
      ensures Valid() && log == old(log) + [Attached(c)]
      ensures connectionMap == old(connectionMap)[c := Connection(role, cluster)]
      ensures online == old(online) + {cluster}
      ensures c !in pingTimes && c !in pongTimes && c !in missedPongs
      ensures pingTimes == old(pingTimes) && pongTimes == old(pongTimes) && missedPongs == old(missedPongs)
    {
      UnusedNotSteady(log, c);
      online := online + {cluster};
      connectionMap := connectionMap[c := Connection(role, cluster)];
      Note(Attached(c));
      hide SilentChecks, Steady;
    }

    /** A pong of a connection no longer in the map leaves no trace. */
    method HandlePong(c: ConnectionId)
      requires Valid()
      modifies this
      ensures Valid() && connectionMap == old(connectionMap) && online == old(online)
      ensures log == if c in connectionMap then old(log) + [Heard(c)] else old(log)
      ensures pingTimes == old(pingTimes)
      ensures c in connectionMap ==> pongTimes == old(pongTimes) + {c} && missedPongs == old(missedPongs)[c := 0]
      ensures c !in connectionMap ==> pongTimes == old(pongTimes) && missedPongs == old(missedPongs)
    {
      if c !in connectionMap {
        return;
      }
      pongTimes := pongTimes + {c};
      missedPongs := missedPongs[c := 0];
      Note(Heard(c));
      hide SilentChecks, Steady;
    }

    method Forget(c: ConnectionId)
      modifies this
      ensures pingTimes == old(pingTimes) - {c} && pongTimes == old(pongTimes) - {c}
      ensures missedPongs == old(missedPongs) - {c}
      ensures connectionMap == old(connectionMap) && online == old(online) && log == old(log)
    {
      pongTimes := pongTimes - {c};
      pingTimes := pingTimes - {c};
      missedPongs := missedPongs - {c};
    }

    /** The tracking entries go in any case, so that none outlives a download that stays in the map. */
    method DropEntries(c: ConnectionId, remove: bool)
      requires Valid() && c in connectionMap
      modifies this
      ensures Valid() && log == old(log) + [Removed(c)]
      ensures connectionMap == if remove then old(connectionMap) - {c} else old(connectionMap)
      ensures online == if remove then old(online) - {old(connectionMap)[c].cluster} else old(online)
      ensures pingTimes == old(pingTimes) - {c} && pongTimes == old(pongTimes) - {c}
      ensures missedPongs == old(missedPongs) - {c}
    {
      if remove {
        online := online - {connectionMap[c].cluster};
        connectionMap := connectionMap - {c};
      }
      Forget(c);
      Note(Removed(c));
      hide SilentChecks, Steady;
    }

    lemma NoEntries(c: ConnectionId)
      requires Valid() && c !in connectionMap
      ensures c !in pingTimes && c !in pongTimes && c !in missedPongs
    {
    }

    /**
     `remove_connection`, of a download with the session its id maps to. Only a session still `Connected` to this
     connection is triggered, and only then does its cleanup take the connection out of the map.
    */
    method RemoveConnection(c: ConnectionId, close: bool, session: Option<Lifecycle>)
      returns (after: Option<Lifecycle>)
      requires Valid()
      modifies this
      ensures Valid()
      ensures log == if c in old(connectionMap) then old(log) + [Removed(c)] else old(log)
      ensures var bound := c in old(connectionMap) && old(connectionMap)[c].role.FileDownload?
                           && session == Some(Connected(c));
        after == if bound then Some(Closing(Some(c), if close then WebSocketError else WebSocketClosed)) else session
      ensures connectionMap ==
              if c in old(connectionMap) && (!old(connectionMap)[c].role.FileDownload? || session == Some(Connected(c)))
              then old(connectionMap) - {c} else old(connectionMap)
      ensures online == if c in old(connectionMap) && c !in connectionMap
                        then old(online) - {old(connectionMap)[c].cluster} else old(online)
      ensures pingTimes == old(pingTimes) - {c} && pongTimes == old(pongTimes) - {c}
      ensures missedPongs == old(missedPongs) - {c}
    {
      hide Valid;
      after := session;
      if c in connectionMap {
        var remove := !connectionMap[c].role.FileDownload?;
        if !remove && session == Some(Connected(c)) {
          var next;
          next, remove := TryTrigger(session.value, if close then WebSocketError else WebSocketClosed);
          after := Some(next);
        }
        DropEntries(c, remove);
      } else {
        NoEntries(c);
      }
    }

    // ----- check_pings

    /** Pinged since the last pong. */
    function NoPong(): set<ConnectionId>
      reads this
    {
      set c | c in pingTimes && c !in pongTimes
    }

    /** First pass: count one more miss for each; the dead have now missed two in a row. */
    method CountMisses(noPong: set<ConnectionId>) returns (dead: set<ConnectionId>)
      requires noPong == NoPong()
      modifies this`missedPongs
      ensures forall c :: Missed(c) == old(Missed(c)) + if c in noPong then 1 else 0
      ensures missedPongs.Keys == old(missedPongs).Keys + noPong
      ensures dead == set c | c in noPong && Missed(c) >= 2
    {
      dead := {};
      var rest := noPong;
      while rest != {}
        invariant rest <= noPong
        invariant forall c :: Missed(c) == old(Missed(c)) + if c in noPong && c !in rest then 1 else 0
        invariant missedPongs.Keys == old(missedPongs).Keys + (noPong - rest)
        invariant dead == set c | c in noPong - rest && Missed(c) >= 2
        decreases rest
      {
        var c :| c in rest;
        var missed := Missed(c) + 1;
        ghost var before := missedPongs;
        missedPongs := missedPongs[c := missed];
        if missed >= 2 {
          dead := dead + {c};
        }
        rest := rest - {c};
      }
    }

    /** Second pass: every dead connection goes through `remove_connection`. */
    method Evict(dead: set<ConnectionId>)
      requires dead <= connectionMap.Keys
      requires forall c :: c in dead ==> connectionMap[c].role.Master?
      modifies this
      ensures connectionMap == old(connectionMap) - dead && log == old(log)
      ensures pingTimes == old(pingTimes) - dead && pongTimes == old(pongTimes) - dead
      ensures missedPongs == old(missedPongs) - dead
      ensures online == old(online) - set c | c in dead :: old(connectionMap)[c].cluster
    {
      var rest := dead;
      while rest != {}
        invariant rest <= dead
        invariant connectionMap == old(connectionMap) - (dead - rest) && log == old(log)
        invariant pingTimes == old(pingTimes) - (dead - rest) && pongTimes == old(pongTimes) - (dead - rest)
        invariant missedPongs == old(missedPongs) - (dead - rest)
        invariant online == old(online) - set c | c in dead - rest :: old(connectionMap)[c].cluster
        decreases rest
      {
        var c :| c in rest;
        pingTimes := pingTimes - {c};
        online := online - {connectionMap[c].cluster};
        connectionMap := connectionMap - {c};
        Forget(c);
        rest := rest - {c};
      }
    }

    predicate Pingable(c: ConnectionId)
      reads this
    {
      c in connectionMap && connectionMap[c].role.Master? && connectionMap[c].cluster in online
    }

    /** Third pass: a fresh ping to every online master connection. */
    method PingAll() returns (pinged: set<ConnectionId>)
      modifies this`pingTimes, this`pongTimes
      ensures pinged == set c | c in connectionMap && Pingable(c)
      ensures pingTimes == old(pingTimes) + pinged && pongTimes == old(pongTimes) - pinged
    {
      pinged := {};
      var rest := connectionMap.Keys;
      while rest != {}
        invariant rest <= connectionMap.Keys
        invariant pinged == set c | c in connectionMap.Keys - rest && Pingable(c)
        invariant pingTimes == old(pingTimes) + pinged && pongTimes == old(pongTimes) - pinged
        decreases rest
      {
        var c :| c in rest;
        if Pingable(c) {
          pingTimes := pingTimes + {c};
          pongTimes := pongTimes - {c};
          pinged := pinged + {c};
        }
        rest := rest - {c};
      }
    }

    /** Whom a check pings: the master connections it leaves behind, of clusters it leaves online. */
    function ToPing(evicted: set<ConnectionId>): set<ConnectionId>
      reads this
      requires evicted <= connectionMap.Keys
    {
      set c | c in connectionMap && c !in evicted && connectionMap[c].role.Master?
              && connectionMap[c].cluster in online - OfflineWith(evicted)
    }

    function OfflineWith(evicted: set<ConnectionId>): set<ClusterId>
      reads this
      requires evicted <= connectionMap.Keys
    {
      set c | c in evicted :: connectionMap[c].cluster
    }

    /**
     Only a master connection is evicted, and only when two earlier checks have gone by without a word from it;
     one found online at every check since its last pong or its registration exactly at the third check after it.
     Exactly the clusters of the evicted go offline, and every other online master connection is pinged.
    */
    method CheckPings() returns (evicted: set<ConnectionId>)
      requires Valid()
      modifies this
      ensures Valid() && connectionMap == old(connectionMap) - evicted && evicted <= old(connectionMap).Keys
      ensures online == old(online) - old(OfflineWith(evicted))
      ensures log == old(log) + [Checked(old(ToPing(evicted)))]
      ensures pingTimes == old(pingTimes) - evicted + old(ToPing(evicted))
      ensures pongTimes == old(pongTimes) - evicted - old(ToPing(evicted))
      ensures evicted == set c | c in old(NoPong()) && old(Missed(c)) + 1 >= 2
      ensures forall c :: c in connectionMap ==> Missed(c) == old(Missed(c)) + if c in old(NoPong()) then 1 else 0
      ensures forall c :: c in evicted ==> old(connectionMap)[c].role.Master? && SilentChecks(old(log), c) >= 2
      ensures forall c :: c in old(connectionMap) && Steady(old(log), c) ==>
                (c in evicted <==> SilentChecks(old(log), c) == 2)
    {
      hide SilentChecks, Steady;
      var noPong := NoPong();
      evicted := CountMisses(noPong);
      Evict(evicted);
      var pinged := PingAll();
      assert pinged == old(ToPing(evicted));
      Note(Checked(pinged));
    }
  }
}
