/** The listings that the broker serves, computed by loops over its maps. */
module Api {
  import opened Seqs
  import opened Objects
  import opened Glob
  import opened BrokerState
  import opened BrokerObject
  import opened Listings
  import Registry
  import Runs

  datatype ClientJSON = ClientJSON(id: string, name: string)
  datatype ServiceJSON = ServiceJSON(owner: string, name: string, ident: string)
  datatype EventInfoJSON = EventInfoJSON(event: string, subscribers: seq<string>)

  function Ids(list: seq<Client>): (r: seq<string>)
    ensures |r| == |list|
  {
    seq(|list|, i requires 0 <= i < |list| => list[i].id)
  }

  /** Each client once, under its id and with its current name. */
  method GetClientsJSON(b: Broker) returns (conns: seq<ClientJSON>)
    requires b.NamesTied()
    requires forall id :: id in b.clients ==> b.clients[id] in b.names && b.clients[id].id == id
    ensures forall id, name :: ClientJSON(id, name) in conns <==>
              id in ListClients(b.clients, b.names) && ListClients(b.clients, b.names)[id] == name
    ensures NoDup(conns)
  {
    conns := [];
    var todo := b.clients.Keys;
    while todo != {}
      invariant todo <= b.clients.Keys && NoDup(conns)
      invariant forall id, name :: ClientJSON(id, name) in conns <==> id in b.clients && id !in todo && b.clients[id].name == name
      decreases todo
    {
      var id :| id in todo;
      todo := todo - {id};
      var c := b.clients[id];
      conns := conns + [ClientJSON(c.id, c.name)];
    }
  }

  /** The services of one name. */
  method ListIdents(inner: map<string, Service>, name: string) returns (list: seq<ServiceJSON>)
    requires forall ident :: ident in inner ==> Keyed(inner[ident]) == (name, ident)
    ensures forall j :: j in list <==> j.name == name && j.ident in inner && inner[j.ident].client.id == j.owner
    ensures NoDup(list)
  {
    list := [];
    var idents := inner.Keys;
    while idents != {}
      invariant idents <= inner.Keys && NoDup(list)
      invariant forall j :: j in list <==>
                  j.name == name && j.ident in inner && j.ident !in idents && inner[j.ident].client.id == j.owner
      decreases idents
    {
      var ident :| ident in idents;
      idents := idents - {ident};
      var s := inner[ident];
      list := list + [ServiceJSON(s.client.id, s.name, s.ident)];
    }
  }

  /** Each registered service once, with the id of its owner. */
  method GetServicesJSON(b: Broker) returns (list: seq<ServiceJSON>)
    requires forall name, ident :: name in b.services && ident in b.services[name] ==> Keyed(b.services[name][ident]) == (name, ident)
    ensures forall owner, name, ident :: ServiceJSON(owner, name, ident) in list <==>
              (name, ident) in ListServices(b.services) && ListServices(b.services)[(name, ident)] == owner
    ensures NoDup(list)
  {
    list := [];
    var names := b.services.Keys;
    while names != {}
      invariant names <= b.services.Keys && NoDup(list)
      invariant forall j :: j in list <==> j.name !in names && Lookup(b.services, j.name, j.ident).Some? &&
                                           Lookup(b.services, j.name, j.ident).value.client.id == j.owner
      decreases names
    {
      var name :| name in names;
      names := names - {name};
      var more := ListIdents(b.services[name], name);
      list := list + more;
    }
  }

  method ListIds(clients: seq<Client>) returns (ids: seq<string>)
    ensures ids == Ids(clients)
  {
    ids := [];
    for i := 0 to |clients|
      invariant ids == Ids(clients[..i])
    {
      ids := ids + [clients[i].id];
    }
    assert clients[..|clients|] == clients;
  }

  /** `fillMap`: the subscribers of each key of one of the two maps, by their ids. */
  method FillMap(events: map<string, seq<string>>, subMap: Subscribers) returns (filled: map<string, seq<string>>)
    ensures filled == events + map k | k in subMap :: Ids(subMap[k])
  {
    filled := events;
    var todo := subMap.Keys;
    while todo != {}
      invariant todo <= subMap.Keys
      invariant filled == events + map k | k in subMap && k !in todo :: Ids(subMap[k])
      decreases todo
    {
      var event :| event in todo;
      todo := todo - {event};
      var ids := ListIds(subMap[event]);
      filled := filled[event := ids];
    }
  }

  /** One entry per key of the merged map. */
  method ListEvents(events: map<string, seq<string>>) returns (ret: seq<EventInfoJSON>)
    ensures forall r :: r in ret <==> r.event in events && r.subscribers == events[r.event]
    ensures forall i, j :: 0 <= i < j < |ret| ==> ret[i].event != ret[j].event
  {
    ret := [];
    var todo := events.Keys;
    while todo != {}
      invariant todo <= events.Keys
      invariant forall r :: r in ret <==> r.event in events && r.event !in todo && r.subscribers == events[r.event]
      invariant forall i, j :: 0 <= i < j < |ret| ==> ret[i].event != ret[j].event
      decreases todo
    {
      var event :| event in todo;
      todo := todo - {event};
      ret := ret + [EventInfoJSON(event, events[event])];
    }
  }

  function Merged(exact: Subscribers, glob: Subscribers): map<string, seq<string>> {
    map[] + (map k | k in exact :: Ids(exact[k])) + (map k | k in glob :: Ids(glob[k]))
  }

  /** Under a key that only one of the maps has, the merged map lists the subscribers of that map. */
  lemma MergedAt(exact: Subscribers, glob: Subscribers, event: string, id: string)
    requires event !in exact || event !in glob
    ensures (event in Merged(exact, glob) && id in Merged(exact, glob)[event]) <==>
            (event, id) in ListSubscribers(exact) + ListSubscribers(glob)
  {
    IdsIn(Clients(exact, event), id);
    IdsIn(Clients(glob, event), id);
  }

  lemma IdsIn(list: seq<Client>, id: string)
    ensures id in Ids(list) <==> exists c :: c in list && c.id == id
  {
    if c :| c in list && c.id == id {
      var i :| 0 <= i < |list| && list[i] == c;
      assert Ids(list)[i] == id;
    }
    if id in Ids(list) {
      var i :| 0 <= i < |list| && Ids(list)[i] == id;
      assert list[i] in list && list[i].id == id;
    }
  }

  /**
   * Each pattern or event name once, with the ids of its subscribers. Keys of
   * the two maps never meet: only patterns with a star are in the second.
   */
  method GetEventsJSON(b: Broker) returns (ret: seq<EventInfoJSON>)
    requires b.subscriberMap.Keys !! b.subscriberMatchMap.Keys
    ensures forall event, id :: (exists r :: r in ret && r.event == event && id in r.subscribers) <==>
              (event, id) in ListSubscribers(b.subscriberMap) + ListSubscribers(b.subscriberMatchMap)
    ensures forall r :: r in ret ==>
              r.subscribers == Ids(if r.event in b.subscriberMatchMap then b.subscriberMatchMap[r.event] else Clients(b.subscriberMap, r.event))
    ensures forall i, j :: 0 <= i < j < |ret| ==> ret[i].event != ret[j].event
  {
    var events := FillMap(map[], b.subscriberMap);
    events := FillMap(events, b.subscriberMatchMap);
    ret := ListEvents(events);
    assert events == Merged(b.subscriberMap, b.subscriberMatchMap);
    forall event, id
      ensures (exists r :: r in ret && r.event == event && id in r.subscribers) <==>
              (event, id) in ListSubscribers(b.subscriberMap) + ListSubscribers(b.subscriberMatchMap)
    {
      MergedAt(b.subscriberMap, b.subscriberMatchMap, event, id);
      if event in events {
        assert EventInfoJSON(event, events[event]) in ret;
      }
    }
  }

  lemma KeysApart(exact: Subscribers, glob: Subscribers)
    requires (forall k :: k in exact ==> !HasStar(k)) && (forall k :: k in glob ==> HasStar(k))
    ensures exact.Keys !! glob.Keys
  {
  }

  lemma KeysMatch(services: BrokerState.Registry)
    requires Registry.WellKeyed(services)
    ensures forall name, ident :: name in services && ident in services[name] ==> Keyed(services[name][ident]) == (name, ident)
  {
    forall name, ident | name in services && ident in services[name]
      ensures Keyed(services[name][ident]) == (name, ident)
    {
      assert Registry.EntryKeyed(services, name, ident);
    }
  }

  /** Every reachable state is one that the listings can be computed in. */
  lemma ReachableListable(st: State)
    requires Runs.Inv(st)
    ensures st.exact.Keys !! st.glob.Keys
    ensures forall id :: id in st.clients ==> st.clients[id] in st.names && st.clients[id].id == id
    ensures forall name, ident :: name in st.services && ident in st.services[name] ==> Keyed(st.services[name][ident]) == (name, ident)
  {
    KeysApart(st.exact, st.glob);
    KeysMatch(st.services);
  }
}
