/** Clients hashed onto workers, with rehashing when the number of workers changes, and two-way room membership. */
module ChatServer {
  import opened Wrappers
  import opened Lists

  type Byte = b: int | 0 <= b < 256

  /** The bytes of a client or room id. */
  datatype ID = ID(bytes: seq<Byte>)

  const UINT32 := 0x1_0000_0000

  /** The accumulator of getWorker, in 32-bit arithmetic. */
  function Hash(id: seq<Byte>): (hash: nat)
    ensures hash < UINT32
  {
    if id == [] then 0 else (Hash(id[..|id| - 1]) * 31 + id[|id| - 1]) % UINT32
  }

  ghost function Power(b: nat, n: nat): nat {
    if n == 0 then 1 else b * Power(b, n - 1)
  }

  /** The first byte weighs most: the sum of the bytes, each times 31 to the number of bytes behind it. */
  ghost function Polynomial(id: seq<Byte>): nat {
    if id == [] then 0 else id[0] * Power(31, |id| - 1) + Polynomial(id[1..])
  }

  lemma {:induction false} PolynomialSnoc(id: seq<Byte>, b: Byte)
    ensures Polynomial(id + [b]) == Polynomial(id) * 31 + b
  {
    if id == [] {
      assert [b][1..] == [] && Power(31, 0) == 1;
      assert Polynomial([b]) == b * Power(31, 0) + Polynomial([]);
      assert id + [b] == [b];
    } else {
      PolynomialSnoc(id[1..], b);
      assert (id + [b])[1..] == id[1..] + [b];
      assert Power(31, |id|) == 31 * Power(31, |id| - 1);
      assert id[0] * (31 * Power(31, |id| - 1)) == id[0] * Power(31, |id| - 1) * 31;
    }
  }

  /** The 32-bit accumulator overflows as the whole sum would. */
  lemma {:induction false} HashIsPolynomial(id: seq<Byte>)
    ensures Hash(id) == Polynomial(id) % UINT32
  {
    if id != [] {
      var init, last := id[..|id| - 1], id[|id| - 1];
      HashIsPolynomial(init);
      assert id == init + [last];
      PolynomialSnoc(init, last);
      RemainderOfStep(Polynomial(init), last);
    }
  }

  lemma RemainderOfStep(n: nat, b: Byte)
    ensures (n % UINT32 * 31 + b) % UINT32 == (n * 31 + b) % UINT32
  {
    var q := n / UINT32;
    assert n * 31 + b == (n % UINT32 * 31 + b) + q * 31 * UINT32;
  }

  ghost function ServedBy(ids: set<ID>): Client -> bool {
    (c: Client) => c.id in ids
  }

  class Worker {
    const id: int
    var clients: map<ID, Client>

    constructor (id: int)
      ensures this.id == id && clients == map[]
    {
      this.id := id;
      clients := map[];
    }

    /** This worker's clients that a broadcast of `senderID` reaches. */
    ghost function Audience(senderID: ID): set<Client>
      reads this
    {
      set id | id in clients && id != senderID :: clients[id]
    }

    method SendBroadcastMsg(senderID: ID) returns (cls: seq<Client>)
      requires forall id | id in clients :: clients[id].id == id
      ensures multiset(cls) == multiset(Audience(senderID))
      ensures forall c | c in cls :: c.id in clients && clients[c.id] == c && c.id != senderID
      ensures forall id | id in clients && id != senderID :: clients[id] in cls
      ensures forall i, j | 0 <= i < j < |cls| :: cls[i] != cls[j]
    {
      cls := [];
      var todo := clients.Keys;
      while todo != {}
        invariant todo <= clients.Keys
        invariant multiset(cls) == multiset(set id | id in clients && id !in todo && id != senderID :: clients[id])
        decreases todo
      {
        var id :| id in todo;
        ghost var done := set id | id in clients && id !in todo && id != senderID :: clients[id];
        todo := todo - {id};
        var c := clients[id];
        if c.id == senderID {
          assert done == set id | id in clients && id !in todo && id != senderID :: clients[id];
          continue;
        }
        assert done + {c} == set id | id in clients && id !in todo && id != senderID :: clients[id];
        cls := cls + [c];
      }
      ListsSet(cls, Audience(senderID));
    }

    /** Of the room members `cls`, those this worker serves. */
    method SendRoomMsg(cls: seq<Client>) returns (workerClients: seq<Client>)
      requires forall c | c in cls && c.id in clients :: clients[c.id] == c
      ensures workerClients == Filter(ServedBy(clients.Keys), cls)
      ensures forall c | c in workerClients :: c in cls && c.id in clients
      ensures forall c | c in cls && c.id in clients :: c in workerClients
    {
      workerClients := [];
      for i := 0 to |cls|
        invariant workerClients == Filter(ServedBy(clients.Keys), cls[..i])
      {
        FilterAppend(ServedBy(clients.Keys), cls[..i], cls[i]);
        assert cls[..i + 1] == cls[..i] + [cls[i]];
        if cls[i].id in clients {
          workerClients := workerClients + [clients[cls[i].id]];
        }
      }
      assert cls[..|cls|] == cls;
      FilterMeans(ServedBy(clients.Keys), cls);
    }
  }

  class Room {
    const id: ID
    var clients: map<ID, Client>

    constructor (id: ID)
      ensures this.id == id && clients == map[]
    {
      this.id := id;
      clients := map[];
    }
  }

  class Client {
    const id: ID
    var rooms: map<ID, Room>
    /** Leaving the server sets the map to nil: reads and deletes still work, writes do not. */
    var roomsNil: bool
    var worker: Worker?

    constructor (id: ID)
      ensures this.id == id && rooms == map[] && !roomsNil && worker == null
    {
      this.id := id;
      rooms := map[];
      roomsNil := false;
      worker := null;
    }
  }

  // The triggers below mention the maps of both objects a link joins, so that following a link never
  // introduces an object that is not already under discussion.

  /** The workers `ws` and the clients `reg` agree, both ways, on who serves whom. */
  ghost predicate Linked(ws: seq<Worker>, reg: map<ID, Client>, everyone: set<Client>, pool: set<Worker>)
    reads pool`clients, everyone`worker
  {
    && (forall i {:trigger ws[i]} | 0 <= i < |ws| :: ws[i] in pool && ws[i].id == i)
    && (forall i {:trigger ws[i].clients} | 0 <= i < |ws| :: ws[i].clients.Keys <= reg.Keys)
    && (forall id {:trigger reg[id]} | id in reg ::
          && reg[id] in everyone && reg[id].id == id
          && var w := reg[id].worker; w != null && 0 <= w.id < |ws| && ws[w.id] == w)
    && (forall i, id {:trigger ws[i].clients, reg[id].worker} | 0 <= i < |ws| && id in reg ::
          if reg[id].worker == ws[i] then id in ws[i].clients && ws[i].clients[id] == reg[id]
          else id !in ws[i].clients)
  }

  /** Rooms and clients agree, both ways, on who is in which room, and only clients of `reg` are in rooms. */
  ghost predicate RoomsLinked(rs: map<ID, Room>, reg: map<ID, Client>, everyone: set<Client>, halls: set<Room>)
    reads halls`clients, everyone`rooms
  {
    LeavingRooms(rs, reg, everyone, halls, {})
  }

  /** As RoomsLinked, but the links in `gone`, pairs of room and client, have been cut on the room's side only. */
  ghost predicate LeavingRooms(rs: map<ID, Room>, reg: map<ID, Client>, everyone: set<Client>, halls: set<Room>,
                               gone: set<(ID, ID)>)
    reads halls`clients, everyone`rooms
  {
    && (forall r {:trigger rs[r]} | r in rs :: rs[r] in halls && rs[r].id == r)
    && (forall r {:trigger rs[r].clients} | r in rs :: rs[r].clients.Keys <= reg.Keys)
    && (forall id {:trigger reg[id]} | id in reg :: reg[id] in everyone && reg[id].id == id)
    && (forall c {:trigger c.rooms} | c in everyone ::
          c.rooms.Keys <= rs.Keys && (c.rooms != map[] ==> c.id in reg && reg[c.id] == c))
    && (forall c, r {:trigger c.rooms[r]} | c in everyone && r in c.rooms :: r in rs && c.rooms[r] == rs[r])
    && (forall r, id {:trigger rs[r].clients, reg[id].rooms} | r in rs && id in reg ::
          if r in reg[id].rooms && (r, id) !in gone then id in rs[r].clients && rs[r].clients[id] == reg[id]
          else id !in rs[r].clients)
  }

  /** Client ids are unique among all clients handled so far. */
  ghost predicate Registered(reg: map<ID, Client>, ids: map<ID, Client>, everyone: set<Client>) {
    && (forall c | c in everyone :: c.id in ids && ids[c.id] == c)
    && (forall id | id in ids :: ids[id] in everyone && ids[id].id == id)
    && (forall id | id in reg :: id in ids && ids[id] == reg[id])
  }

  type Contents = map<ID, map<ID, Client>>

  ghost function WithClient(contents: Contents, r: ID, c: Client): Contents {
    contents[r := if r in contents then contents[r][c.id := c] else map[c.id := c]]
  }

  ghost function WithoutClient(contents: Contents, id: ID): Contents {
    map r | r in contents :: contents[r] - {id}
  }

  class WSServer {
    var clients: map<ID, Client>
    var rooms: map<ID, Room>
    var workers: seq<Worker>
    var activeClients: int
    const clientsPerWorker := 50
    /** Every client, worker and room the server has handled or created, and the clients by id. */
    ghost var allClients: set<Client>
    ghost var allWorkers: set<Worker>
    ghost var allRooms: set<Room>
    ghost var byId: map<ID, Client>
    /** The initial worker count, and the most clients ever registered at once. */
    ghost const initialWorkers: nat
    ghost var peakClients: nat

    ghost function Index(id: ID): (index: nat)
      requires |workers| > 0
      reads this`workers
      ensures index < |workers|
    {
      Hash(id.bytes) % |workers|
    }

    ghost function Home(id: ID): Worker
      requires |workers| > 0
      reads this`workers
    {
      workers[Index(id)]
    }

    /** The clients `ids` of `reg` point at the worker their id hashes to. */
    ghost predicate Placed(ids: set<ID>, reg: map<ID, Client>, everyone: set<Client>)
      requires 0 < |workers|
      reads this`workers, everyone`worker
    {
      forall id | id in ids :: id in reg && reg[id] in everyone && reg[id].worker == Home(id)
    }

    /** Every client is served by the worker its id hashes to, and by no other. */
    ghost predicate Sharded()
      reads this`clients, this`workers, this`allClients, this`allWorkers, allClients`worker, allWorkers`clients
    {
      && |workers| > 0 && Linked(workers, clients, allClients, allWorkers) && Placed(clients.Keys, clients, allClients)
    }

    ghost predicate Roomed()
      reads this`rooms, this`clients, this`allClients, this`allRooms, allRooms`clients, allClients`rooms
    {
      Pooled() && RoomsLinked(rooms, clients, allClients, allRooms)
    }

    ghost predicate Counted()
      reads this`clients, this`workers, this`activeClients, this`peakClients
    {
      && activeClients == |clients| <= peakClients
      && (|workers| <= initialWorkers || 25 * (|workers| - 1) < peakClients)
    }

    ghost predicate Valid()
      reads this, allClients, allWorkers, allRooms
    {
      Sharded() && Registered(clients, byId, allClients) && Roomed() && Counted()
    }

    /** Client ids are unique, and a client the server has not seen is in no room. */
    ghost predicate Identified(client: Client)
      reads this`byId, client`rooms
    {
      if client.id in byId then byId[client.id] == client else client.rooms == map[]
    }

    ghost predicate Pooled()
      reads this`rooms, this`allRooms
    {
      forall r | r in rooms :: rooms[r] in allRooms
    }

    /** Who is in which room. */
    ghost function Contents(): Contents
      requires Pooled()
      reads this`rooms, this`allRooms, allRooms`clients
    {
      map r | r in rooms :: rooms[r].clients
    }

    constructor (workerCount: nat)
      requires workerCount > 0
      ensures Valid() && clients == map[] && rooms == map[] && |workers| == workerCount && allClients == {}
      ensures initialWorkers == workerCount && peakClients == 0
    {
      var ws: seq<Worker> := [];
      for i := 0 to workerCount
        invariant |ws| == i && forall j | 0 <= j < i :: ws[j].id == j && ws[j].clients == map[]
      {
        var w := new Worker(i);
        ws := ws + [w];
      }
      clients := map[];
      rooms := map[];
      workers := ws;
      activeClients := 0;
      byId, allClients, allRooms, allWorkers := map[], {}, {}, set w | w in ws;
      initialWorkers := workerCount;
      peakClients := 0;
    }

    method GetWorker(cID: ID) returns (w: Worker)
      requires |workers| > 0
      ensures w == Home(cID) == workers[Hash(cID.bytes) % |workers|]
    {
      var hash := 0;
      for i := 0 to |cID.bytes|
        invariant hash == Hash(cID.bytes[..i])
      {
        assert cID.bytes[..i + 1][..i] == cID.bytes[..i];
        hash := (hash * 31 + cID.bytes[i]) % UINT32;
      }
      assert cID.bytes[..|cID.bytes|] == cID.bytes;
      var workerIndex := hash % |workers|;
      w := workers[workerIndex];
    }

    method AddClientToWorker(client: Client, ghost ws: seq<Worker>, ghost reg: map<ID, Client>,
                             ghost everyone: set<Client>)
      requires 0 < |workers| && workers <= ws && Linked(ws, reg, everyone, allWorkers)
      requires client.id !in reg && client in everyone
      modifies Home(client.id)`clients, client`worker
      ensures client.worker == Home(client.id)
      ensures Linked(ws, reg[client.id := client], everyone, allWorkers)
    {
      var w := GetWorker(client.id);
      w.clients := w.clients[client.id := client];
      client.worker := w;
    }

    method RemoveClientFromWorker(client: Client, ghost reg: map<ID, Client>)
      requires 0 < |workers| && Linked(workers, reg, allClients, allWorkers)
      requires client.id in reg ==> reg[client.id] == client && client.worker == Home(client.id)
      modifies Home(client.id)`clients, client`worker
      ensures client.worker == null && Linked(workers, reg - {client.id}, allClients, allWorkers)
    {
      var w := GetWorker(client.id);
      w.clients := w.clients - {client.id};
      client.worker := null;
    }

    /** A registered client has a worker, which is its new one exactly if the ids agree. */
    lemma CurrentWorker(c: Client, ws: seq<Worker>)
      requires 0 < |workers| && workers <= ws && Linked(ws, clients, allClients, allWorkers)
      requires c.id in clients && clients[c.id] == c
      ensures c in allClients && c.worker != null && c.worker in allWorkers && Home(c.id) in allWorkers
      ensures c.worker.id == Home(c.id).id <==> c.worker == Home(c.id)
    {
      assert ws[Index(c.id)] == Home(c.id);
    }

    /** The body of both rehash loops; `ws` are the workers before and after the change of size. */
    method RehashClient(c: Client, ghost ws: seq<Worker>)
      requires 0 < |workers| && workers <= ws && Linked(ws, clients, allClients, allWorkers)
      requires c.id in clients && clients[c.id] == c
      modifies allWorkers`clients, c`worker
      ensures Linked(ws, clients, allClients, allWorkers) && c.worker == Home(c.id)
    {
      hide Linked, Home, Index, Hash;
      CurrentWorker(c, ws);
      var w := GetWorker(c.id);
      if c.worker.id != w.id {
        Detach(c, ws);
        AddClientToWorker(c, ws, clients - {c.id}, allClients);
        assert (clients - {c.id})[c.id := c] == clients;
      }
    }

    method Detach(c: Client, ghost ws: seq<Worker>)
      requires Linked(ws, clients, allClients, allWorkers) && c.id in clients && clients[c.id] == c
      modifies c.worker`clients
      ensures Linked(ws, clients - {c.id}, allClients, allWorkers)
    {
      c.worker.clients := c.worker.clients - {c.id};
    }

    method RehashNext(id: ID, ghost done: set<ID>, ghost ws: seq<Worker>)
      requires 0 < |workers| && workers <= ws && Linked(ws, clients, allClients, allWorkers)
      requires Placed(done, clients, allClients)
      requires id in clients
      modifies allWorkers`clients, allClients`worker
      ensures Linked(ws, clients, allClients, allWorkers) && Placed(done + {id}, clients, allClients)
    {
      RehashClient(clients[id], ws);
    }

    lemma OnlyCurrentWorkersServe(ws: seq<Worker>)
      requires 0 < |workers| && workers <= ws && Linked(ws, clients, allClients, allWorkers)
      requires Placed(clients.Keys, clients, allClients)
      ensures Linked(workers, clients, allClients, allWorkers)
    {
    }

    /** The rehash loop: afterwards every client is served by the worker its id hashes to, and by no other. */
    method Rehash(ghost ws: seq<Worker>)
      requires 0 < |workers| && workers <= ws && Linked(ws, clients, allClients, allWorkers)
      modifies allWorkers`clients, allClients`worker
      ensures Sharded()
    {
      var todo := clients.Keys;
      ghost var done: set<ID> := {};
      while todo != {}
        invariant clients.Keys == todo + done
        invariant Linked(ws, clients, allClients, allWorkers) && Placed(done, clients, allClients)
        decreases todo
      {
        var id :| id in todo;
        RehashNext(id, done, ws);
        todo, done := todo - {id}, done + {id};
      }
      assert done == clients.Keys;
      OnlyCurrentWorkersServe(ws);
    }

    method ScaleUp(lastIdx: nat)
      requires Sharded() && lastIdx == |workers| - 1
      modifies this`workers, this`allWorkers, allWorkers`clients, allClients`worker
      ensures Sharded() && |workers| == old(|workers|) + 1 && fresh(allWorkers - old(allWorkers))
    {
      var newW := new Worker(lastIdx + 1);
      workers := workers + [newW];
      allWorkers := allWorkers + {newW};
      assert Linked(workers, clients, allClients, allWorkers);
      Rehash(workers);
    }

    method ScaleDown(lastIdx: nat)
      requires Sharded() && lastIdx == |workers| - 1 > 0
      modifies this`workers, allWorkers`clients, allClients`worker
      ensures Sharded() && |workers| == old(|workers|) - 1
    {
      ghost var ws := workers;
      workers := workers[..lastIdx];
      Rehash(ws);
    }

    method CheckScaleUp()
      requires Sharded() && Counted()
      modifies this`workers, this`allWorkers, allWorkers`clients, allClients`worker
      ensures Sharded() && Counted() && fresh(allWorkers - old(allWorkers))
      ensures |workers| == old(|workers|) +
                           if |clients| > 50 && 25 * old(|workers|) < |clients| then 1 else 0
    {
      var totalClients := |clients|;
      var totalWorkers := |workers|;
      if totalClients > clientsPerWorker && totalWorkers * clientsPerWorker < 2 * totalClients {
        ScaleUp(totalWorkers - 1);
      }
    }

    method CheckScaleDown()
      requires Sharded() && Counted()
      modifies this`workers, allWorkers`clients, allClients`worker
      ensures Sharded() && Counted()
      ensures |workers| == old(|workers|) -
                           if |clients| > 50 && 25 * old(|workers|) >= |clients| then 1 else 0
    {
      var totalClients := |clients|;
      var totalWorkers := |workers|;
      if totalClients > clientsPerWorker && totalWorkers * clientsPerWorker >= 2 * totalClients {
        ScaleDown(totalWorkers - 1);
      }
    }

    /** The check after a client has joined: it touches only workers and who serves whom. */
    method Grow()
      requires Valid()
      modifies this`workers, this`allWorkers, allWorkers`clients, allClients`worker
      ensures Valid() && fresh(allWorkers - old(allWorkers))
      ensures |workers| == old(|workers|) + if |clients| > 50 && 25 * old(|workers|) < |clients| then 1 else 0
    {
      hide Sharded, Counted, RoomsLinked, Registered;
      CheckScaleUp();
    }

    /** The check after a client has left. */
    method Shrink()
      requires Valid()
      modifies this`workers, allWorkers`clients, allClients`worker
      ensures Valid() && Pooled() && Contents() == old(Contents())
      ensures |workers| == old(|workers|) - if |clients| > 50 && 25 * old(|workers|) >= |clients| then 1 else 0
    {
      hide Sharded, Counted, RoomsLinked, Registered;
      CheckScaleDown();
    }

    lemma NewcomerIsInNoRoom(client: Client)
      requires Roomed() && Registered(clients, byId, allClients) && Identified(client) && client.id !in clients
      ensures RoomsLinked(rooms, clients[client.id := client], allClients + {client}, allRooms)
    {
      assert client.rooms == map[];
    }

    lemma NewcomerIsUnserved(client: Client)
      requires Sharded() && Registered(clients, byId, allClients) && Identified(client) && client.id !in clients
      ensures Linked(workers, clients, allClients + {client}, allWorkers)
      ensures Placed(clients.Keys, clients, allClients + {client})
      ensures Registered(clients[client.id := client], byId[client.id := client], allClients + {client})
      ensures Home(client.id) in allWorkers && forall id | id in clients :: clients[id] != client
    {
    }

    /** Registers a client that is not registered: worker first, then the server's map. */
    method Register(client: Client)
      requires Sharded() && Registered(clients, byId, allClients) && Roomed()
      requires client.id !in clients && Identified(client)
      modifies this`clients, this`allClients, this`byId, Home(client.id)`clients, client`worker
      ensures Sharded() && Registered(clients, byId, allClients) && Roomed()
      ensures clients == old(clients)[client.id := client] && allClients == old(allClients) + {client}
      ensures Identified(client)
    {
      hide RoomsLinked, Linked, Registered, Placed, Home, Index, Hash;
      NewcomerIsInNoRoom(client);
      NewcomerIsUnserved(client);
      Serve(client, clients, allClients + {client});
      Record(client);
    }

    /** Links a newcomer and its worker; nothing else is affected. */
    method Serve(client: Client, ghost others: map<ID, Client>, ghost everyone: set<Client>)
      requires 0 < |workers| && Linked(workers, others, everyone, allWorkers) && Placed(others.Keys, others, everyone)
      requires client.id !in others && client in everyone && forall id | id in others :: others[id] != client
      modifies Home(client.id)`clients, client`worker
      ensures var reg := others[client.id := client];
              Linked(workers, reg, everyone, allWorkers) && Placed(reg.Keys, reg, everyone)
    {
      AddClientToWorker(client, workers, others, everyone);
    }

    /** Enters a client that has its worker in the server's map. */
    method Record(client: Client)
      requires |workers| > 0 && Pooled()
      requires var (reg, everyone) := (clients[client.id := client], allClients + {client});
               && Linked(workers, reg, everyone, allWorkers) && Placed(reg.Keys, reg, everyone)
               && RoomsLinked(rooms, reg, everyone, allRooms)
               && Registered(reg, byId[client.id := client], everyone)
      modifies this`clients, this`allClients, this`byId
      ensures clients == old(clients)[client.id := client] && allClients == old(allClients) + {client}
      ensures Sharded() && Registered(clients, byId, allClients) && Roomed() && Identified(client)
    {
      hide RoomsLinked, Linked, Registered, Placed;
      clients := clients[client.id := client];
      allClients := allClients + {client};
      byId := byId[client.id := client];
    }

    lemma ServerShape(client: Client)
      requires Valid() && Identified(client)
      ensures |workers| > 0 && Home(client.id) in allWorkers && |clients| <= peakClients && Pooled()
      ensures client.id in clients ==> clients[client.id] == client && client in allClients
      ensures forall id | id in clients :: clients[id].id == id
      ensures forall r | r in rooms :: rooms[r].id == r && rooms[r] in allRooms
      ensures forall c | c in allClients && c.id == client.id :: c == client
    {
    }

    /** All of JoinServer, for a client that is not registered, but the check whether to scale up. */
    method Enrol(client: Client)
      requires Valid() && client.id !in clients && Identified(client)
      modifies this`clients, this`allClients, this`byId, this`activeClients, this`peakClients
      modifies Home(client.id)`clients, client`worker
      ensures Valid() && Identified(client)
      ensures clients == old(clients)[client.id := client] && allClients == old(allClients) + {client}
      ensures peakClients == if old(peakClients) < |clients| then |clients| else old(peakClients)
    {
      hide Sharded, Roomed, Linked, RoomsLinked, Registered, Placed, Home, Index, Hash, Identified;
      Register(client);
      activeClients := activeClients + 1;
      peakClients := if peakClients < |clients| then |clients| else peakClients;
    }

    method JoinServer(client: Client)
      requires Valid() && Identified(client)
      modifies this`clients, this`activeClients, this`workers, allWorkers`clients, allClients`worker, client`worker
      modifies this`allClients, this`byId, this`peakClients, this`allWorkers
      ensures Valid() && Identified(client) && clients == old(clients)[client.id := client]
      ensures allClients == old(allClients) + {client}
      ensures peakClients == if old(peakClients) < |clients| then |clients| else old(peakClients)
      ensures var joins := client.id !in old(clients);
              |workers| == old(|workers|) + if joins && |clients| > 50 && 25 * old(|workers|) < |clients| then 1 else 0
    {
      hide Valid, Home, Index, Hash, Identified;
      ServerShape(client);
      if client.id in clients {
        return;
      }
      Enrol(client);
      Grow();
    }

    /** One round of the loop that takes a leaving client out of its rooms. */
    method LeaveOneRoom(client: Client, r: ID, ghost reg: map<ID, Client>, ghost gone: set<(ID, ID)>)
      requires LeavingRooms(rooms, reg, allClients, allRooms, gone)
      requires client in allClients && r in client.rooms
      modifies allRooms`clients
      ensures LeavingRooms(rooms, reg, allClients, allRooms, gone + {(r, client.id)})
      ensures client.rooms[r] == rooms[r]
      ensures r in rooms && rooms[r] in allRooms && rooms[r].clients == old(rooms[r].clients) - {client.id}
      ensures forall h | h in allRooms && h != client.rooms[r] :: h.clients == old(h.clients)
    {
      client.rooms[r].clients := client.rooms[r].clients - {client.id};
    }

    /** Takes a leaving client out of every room it is in, and drops its own room map. */
    method LeaveRooms(client: Client, ghost reg: map<ID, Client>)
      requires LeavingRooms(rooms, reg, allClients, allRooms, {})
      requires client.rooms != map[] ==> client in allClients
      requires client.id in reg ==> reg[client.id] == client
      modifies allRooms`clients, client`rooms, client`roomsNil
      ensures RoomsLinked(rooms, reg - {client.id}, allClients, allRooms)
      ensures client.rooms == map[] && client.roomsNil
      ensures forall h | h in allRooms :: h.clients == old(h.clients) || h.clients == old(h.clients) - {client.id}
    {
      var todo := client.rooms.Keys;
      ghost var gone: set<(ID, ID)> := {};
      while todo != {}
        invariant todo <= client.rooms.Keys && client.rooms == old(client.rooms)
        invariant LeavingRooms(rooms, reg, allClients, allRooms, gone)
        invariant gone == set r | r in client.rooms.Keys - todo :: (r, client.id)
        invariant forall h | h in allRooms :: h.clients == old(h.clients) || h.clients == old(h.clients) - {client.id}
        decreases todo
      {
        var r :| r in todo;
        LeaveOneRoom(client, r, reg, gone);
        todo, gone := todo - {r}, gone + {(r, client.id)};
      }
      assert client.rooms.Keys - todo == client.rooms.Keys;
      FinishLeaving(client, reg);
    }

    method FinishLeaving(client: Client, ghost reg: map<ID, Client>)
      requires LeavingRooms(rooms, reg, allClients, allRooms, set r | r in client.rooms.Keys :: (r, client.id))
      requires client.id in reg ==> reg[client.id] == client
      modifies client`rooms, client`roomsNil
      ensures RoomsLinked(rooms, reg - {client.id}, allClients, allRooms)
      ensures client.rooms == map[] && client.roomsNil
    {
      client.rooms := map[];
      client.roomsNil := true;
    }

    /** Who is still linked to whom when `client` has left the server's map, which was `reg`. */
    ghost predicate Leaving(client: Client, reg: map<ID, Client>)
      reads this`rooms, this`workers, this`allClients, this`allWorkers, this`allRooms
      ensures Leaving(client, reg) ==> Pooled()
      reads allClients`worker, allClients`rooms, allWorkers`clients, allRooms`clients, client`rooms, client`worker
    {
      && Pooled() && |workers| > 0 && Home(client.id) in allWorkers
      && Linked(workers, reg, allClients, allWorkers) && LeavingRooms(rooms, reg, allClients, allRooms, {})
      && (client.rooms != map[] ==> client in allClients)
      && (client.id in reg ==> reg[client.id] == client && client.worker == Home(client.id))
      && var others := reg - {client.id}; Placed(others.Keys, others, allClients - {client})
    }

    lemma BeginsToLeave(client: Client)
      requires Sharded() && Registered(clients, byId, allClients) && Roomed() && Identified(client)
      ensures Leaving(client, clients) && Registered(clients - {client.id}, byId, allClients)
    {
      hide Linked, RoomsLinked, LeavingRooms, Home, Index, Hash;
      LeaverIsLinked(client);
      LeaverIsInItsRooms(client);
    }

    lemma LeaverIsLinked(client: Client)
      requires Sharded() && Registered(clients, byId, allClients) && Identified(client)
      ensures |workers| > 0 && Home(client.id) in allWorkers && Linked(workers, clients, allClients, allWorkers)
      ensures var others := clients - {client.id}; Placed(others.Keys, others, allClients - {client})
      ensures client.id in clients ==> clients[client.id] == client && client.worker == Home(client.id)
      ensures Registered(clients - {client.id}, byId, allClients)
    {
    }

    lemma LeaverIsInItsRooms(client: Client)
      requires Roomed() && Registered(clients, byId, allClients) && Identified(client)
      ensures Pooled() && LeavingRooms(rooms, clients, allClients, allRooms, {})
      ensures client.rooms != map[] ==> client in allClients
      ensures client.id in clients ==> clients[client.id] == client
    {
    }

    lemma LeaverIsGone(client: Client)
      requires |workers| > 0 && Linked(workers, clients, allClients, allWorkers)
      requires Placed(clients.Keys, clients, allClients - {client})
      requires RoomsLinked(rooms, clients, allClients, allRooms) && client.id !in clients
      ensures Sharded() && Roomed()
      ensures forall r | r in rooms :: client.id !in rooms[r].clients && rooms[r] in allRooms
    {
    }

    /** Takes a client that is no longer registered out of its rooms and off its worker. */
    method Unlink(client: Client, ghost reg: map<ID, Client>)
      requires Leaving(client, reg) && clients == reg - {client.id}
      modifies Home(client.id)`clients, client`worker, allRooms`clients, client`rooms, client`roomsNil
      ensures Sharded() && Roomed() && client.worker == null && client.rooms == map[] && client.roomsNil
      ensures Pooled() && Contents() == WithoutClient(old(Contents()), client.id)
    {
      hide Linked, RoomsLinked, LeavingRooms, Placed, Home, Index, Hash, Sharded, Roomed;
      LeaveRooms(client, reg);
      RemoveClientFromWorker(client, reg);
      LeaverIsGone(client);
      assert forall r | r in rooms :: rooms[r].clients == old(rooms[r].clients) - {client.id};
    }

    /** Takes a client out of the server's map; every link is still there. */
    method Drop(client: Client)
      requires activeClients == |clients| && Leaving(client, clients)
      modifies this`clients, this`activeClients
      ensures clients == old(clients) - {client.id} && activeClients == |clients| <= old(|clients|)
      ensures Leaving(client, old(clients)) && Pooled() && Contents() == old(Contents())
    {
      hide Leaving, Pooled, Contents;
      if client.id in clients {
        activeClients := activeClients - 1;
        clients := clients - {client.id};
      } else {
        assert clients == clients - {client.id};
      }
    }

    /** All of LeaveServer but the check whether to scale down. */
    method Deregister(client: Client)
      requires Sharded() && Registered(clients, byId, allClients) && Roomed() && Identified(client)
      requires activeClients == |clients|
      modifies this`clients, this`activeClients, Home(client.id)`clients, client`worker
      modifies allRooms`clients, client`rooms, client`roomsNil
      ensures Sharded() && Registered(clients, byId, allClients) && Roomed()
      ensures clients == old(clients) - {client.id} && activeClients == |clients| <= old(|clients|)
      ensures client.rooms == map[] && client.roomsNil
      ensures Pooled() && Contents() == WithoutClient(old(Contents()), client.id)
    {
      hide Leaving, Contents, WithoutClient, Pooled, Registered, Home, Identified, Sharded, Roomed;
      BeginsToLeave(client);
      ghost var reg := clients;
      Drop(client);
      Unlink(client, reg);
    }

    method DeregisterAndShrink(client: Client)
      requires Valid() && Identified(client)
      modifies this`clients, this`activeClients, this`workers, allWorkers`clients, allClients`worker, client`worker
      modifies allRooms`clients, client`rooms, client`roomsNil
      ensures Valid() && clients == old(clients) - {client.id} && client.rooms == map[] && client.roomsNil
      ensures Pooled() && Contents() == WithoutClient(old(Contents()), client.id)
      ensures |workers| == old(|workers|) -
                           if |clients| > 50 && 25 * old(|workers|) >= |clients| then 1 else 0
    {
      hide Contents, WithoutClient, Pooled, Linked, Registered, Home, Index, Hash, Identified, Sharded, Roomed;
      ServerShape(client);
      Deregister(client);
      Shrink();
    }

    /** The client is gone from the server and from every room, and nobody else is. */
    method LeaveServer(client: Client)
      requires Valid() && Identified(client)
      modifies this`clients, this`activeClients, this`workers, allWorkers`clients, allClients`worker, client`worker
      modifies allRooms`clients, client`rooms, client`roomsNil
      ensures Valid() && clients == old(clients) - {client.id} && client.rooms == map[] && client.roomsNil
      ensures forall r | r in rooms :: rooms[r].clients == old(rooms[r].clients) - {client.id}
      ensures Pooled() && Contents() == WithoutClient(old(Contents()), client.id)
      ensures |workers| == old(|workers|) -
                           if |clients| > 50 && 25 * old(|workers|) >= |clients| then 1 else 0
    {
      hide Valid, Pooled, Contents, Identified;
      RoomsArePooled();
      ContentsShown();
      DeregisterAndShrink(client);
      ContentsShown();
    }

    /** The room a join goes to, created when it does not exist. */
    method OpenRoom(roomID: ID) returns (room: Room)
      requires Roomed()
      modifies this`rooms, this`allRooms
      ensures Roomed() && roomID in rooms && rooms[roomID] == room && room.id == roomID
      ensures room in allRooms && (room in old(allRooms) || fresh(room))
      ensures Contents() == if roomID in old(Contents()) then old(Contents()) else old(Contents())[roomID := map[]]
    {
      if roomID in rooms {
        return rooms[roomID];
      }
      room := new Room(roomID);
      rooms := rooms[roomID := room];
      allRooms := allRooms + {room};
    }

    /** Links a registered client and a room on both sides. */
    method MakeLink(client: Client, room: Room)
      requires RoomsLinked(rooms, clients, allClients, allRooms)
      requires client.id in clients && clients[client.id] == client && client in allClients
      requires room.id in rooms && rooms[room.id] == room && room in allRooms
      modifies room`clients, client`rooms
      ensures RoomsLinked(rooms, clients, allClients, allRooms)
      ensures room.clients == old(room.clients)[client.id := client]
      ensures client.rooms == old(client.rooms)[room.id := room]
    {
      room.clients := room.clients[client.id := client];
      client.rooms := client.rooms[room.id := room];
    }

    method EnterRoom(client: Client, room: Room)
      requires Roomed() && client.id in clients && clients[client.id] == client && client in allClients
      requires room.id in rooms && rooms[room.id] == room && room in allRooms
      modifies room`clients, client`rooms
      ensures Roomed()
      ensures Contents() == old(Contents())[room.id := old(room.clients)[client.id := client]]
      ensures old(Contents())[room.id] == old(room.clients)
      ensures client.rooms == old(client.rooms)[room.id := room]
    {
      hide RoomsLinked, LeavingRooms;
      RoomIds();
      MakeLink(client, room);
    }

    /** The part of a join that concerns the room: with no room map to write to, it panics half way. */
    method GoIn(client: Client, roomID: ID) returns (panics: bool)
      requires Valid() && client.id in clients && clients[client.id] == client && client in allClients
      modifies this`rooms, this`allRooms, allRooms`clients, client`rooms
      ensures panics <==> client.roomsNil
      ensures !panics ==> Valid() && Contents() == WithClient(old(Contents()), roomID, client)
      ensures !panics ==> roomID in rooms && client.rooms == old(client.rooms)[roomID := rooms[roomID]]
    {
      hide Contents, Pooled, RoomsLinked, LeavingRooms, Roomed, Sharded, Registered, Counted;
      var room := OpenRoom(roomID);
      if client.roomsNil {
        room.clients := room.clients[client.id := client];
        return true;
      }
      EnterRoom(client, room);
      return false;
    }

    method RegisterAndGoIn(client: Client, roomID: ID) returns (panics: bool)
      requires Valid() && Identified(client)
      modifies this`clients, this`activeClients, this`workers, allWorkers`clients, allClients`worker, client`worker
      modifies this`allClients, this`byId, this`peakClients, this`allWorkers
      modifies this`rooms, this`allRooms, allRooms`clients, client`rooms
      ensures panics <==> client.roomsNil
      ensures clients == old(clients)[client.id := client]
      ensures !panics ==> Valid() && Contents() == WithClient(old(Contents()), roomID, client)
      ensures !panics ==> roomID in rooms && client.rooms == old(client.rooms)[roomID := rooms[roomID]]
    {
      hide Valid, Contents, WithClient, Identified;
      RoomsArePooled();
      JoinServer(client);
      ServerShape(client);
      panics := GoIn(client, roomID);
    }

    /** Who is in which room, room by room. */
    lemma ContentsShown()
      requires Pooled()
      ensures Contents().Keys == rooms.Keys && forall r | r in rooms :: Contents()[r] == rooms[r].clients
    {
    }

    /**
      Exactly this client joins exactly this room, created if missing. A client that has left has no room map
      to write to: the handler panics then, after it has registered the client again and before the link is
      complete.
     */
    method JoinRoom(client: Client, roomID: ID) returns (panics: bool)
      requires Valid() && Identified(client)
      modifies this`clients, this`activeClients, this`workers, allWorkers`clients, allClients`worker, client`worker
      modifies this`allClients, this`byId, this`peakClients, this`allWorkers
      modifies this`rooms, this`allRooms, allRooms`clients, client`rooms
      ensures panics <==> client.roomsNil
      ensures clients == old(clients)[client.id := client]
      ensures !panics ==> Valid() && Contents() == WithClient(old(Contents()), roomID, client)
      ensures !panics ==> rooms.Keys == old(rooms.Keys) + {roomID}
      ensures !panics ==> rooms[roomID].clients == (if roomID in old(rooms) then old(rooms[roomID].clients) else map[])
                                                   [client.id := client]
      ensures !panics ==> forall r | r in old(rooms) && r != roomID :: rooms[r].clients == old(rooms[r].clients)
      ensures !panics ==> client.rooms == old(client.rooms)[roomID := rooms[roomID]]
    {
      hide Valid, Contents, Identified;
      RoomsArePooled();
      ContentsShown();
      panics := RegisterAndGoIn(client, roomID);
      if !panics {
        RoomsArePooled();
        ContentsShown();
      }
    }

    lemma RoomsArePooled()
      requires Valid()
      ensures Pooled()
    {
      hide RoomsLinked, Sharded, Registered;
    }

    /** Cuts the link between a client and a room on both sides. */
    method CutLink(client: Client, room: Room)
      requires RoomsLinked(rooms, clients, allClients, allRooms)
      requires forall c | c in allClients && c.id == client.id :: c == client
      requires room.id in rooms && rooms[room.id] == room
      modifies room`clients, client`rooms
      ensures RoomsLinked(rooms, clients, allClients, allRooms)
      ensures client.rooms == old(client.rooms) - {room.id} && room.clients == old(room.clients) - {client.id}
    {
      room.clients := room.clients - {client.id};
      client.rooms := client.rooms - {room.id};
    }

    method ExitRoom(client: Client, room: Room)
      requires Roomed() && forall c | c in allClients && c.id == client.id :: c == client
      requires room.id in rooms && rooms[room.id] == room
      modifies room`clients, client`rooms
      ensures Roomed() && client.rooms == old(client.rooms) - {room.id}
      ensures Contents() == old(Contents())[room.id := old(Contents())[room.id] - {client.id}]
    {
      hide RoomsLinked, LeavingRooms;
      RoomIds();
      CutLink(client, room);
    }

    method LeaveRoom(client: Client, roomID: ID)
      requires Valid() && Identified(client)
      modifies allRooms`clients, client`rooms
      ensures Valid()
      ensures client.rooms == if roomID in rooms then old(client.rooms) - {roomID} else old(client.rooms)
      ensures forall r | r in rooms ::
                rooms[r].clients == if r == roomID then old(rooms[r].clients) - {client.id} else old(rooms[r].clients)
      ensures Contents() == var before := old(Contents());
                            if roomID in before then before[roomID := before[roomID] - {client.id}] else before
    {
      hide Linked, RoomsLinked, LeavingRooms, Registered, Placed, Home, Index, Hash, Identified, Sharded, Roomed;
      if roomID !in rooms {
        return;
      }
      ServerShape(client);
      ExitRoom(client, rooms[roomID]);
    }

    /** There is always a worker to hash to, and no more of them than the most clients ever registered justify. */
    lemma WorkerCountIsBounded()
      requires Valid()
      ensures 1 <= |workers|
      ensures |workers| <= initialWorkers || |workers| <= 1 + (peakClients - 1) / 25
      ensures activeClients == |clients| <= peakClients
    {
    }

    /** Rooms and registered clients agree on every membership. */
    lemma MembershipIsMutual(r: ID, id: ID)
      requires Valid() && r in rooms && id in clients
      ensures id in rooms[r].clients <==> r in clients[id].rooms
      ensures id in rooms[r].clients ==> rooms[r].clients[id] == clients[id] && clients[id].rooms[r] == rooms[r]
    {
      hide Linked, Placed, Registered;
      var room, client := rooms[r], clients[id];
      assert room.clients.Keys <= clients.Keys;
    }

    // ----- fan-out -----

    lemma IdsAreKeys()
      requires Sharded()
      ensures |workers| > 0 && forall id | id in clients :: clients[id].id == id
    {
    }

    /** The registered clients a broadcast of `senderID` reaches. */
    ghost function Audience(senderID: ID): set<Client>
      reads this`clients
    {
      set id | id in clients && id != senderID :: clients[id]
    }

    method SendBroadcastMsg(senderID: ID) returns (cls: seq<Client>)
      requires Valid()
      ensures multiset(cls) == multiset(Audience(senderID))
      ensures forall c | c in cls :: c.id in clients && clients[c.id] == c && c.id != senderID
      ensures forall id | id in clients && id != senderID :: clients[id] in cls
      ensures forall i, j | 0 <= i < j < |cls| :: cls[i] != cls[j]
    {
      hide Linked, RoomsLinked, LeavingRooms, Registered, Placed, Sharded, Roomed;
      IdsAreKeys();
      cls := [];
      var todo := clients.Keys;
      while todo != {}
        invariant todo <= clients.Keys
        invariant multiset(cls) == multiset(set id | id in clients && id !in todo && id != senderID :: clients[id])
        decreases todo
      {
        var id :| id in todo;
        ghost var done := set id | id in clients && id !in todo && id != senderID :: clients[id];
        todo := todo - {id};
        var c := clients[id];
        if c.id == senderID {
          assert done == set id | id in clients && id !in todo && id != senderID :: clients[id];
          continue;
        }
        assert done + {c} == set id | id in clients && id !in todo && id != senderID :: clients[id];
        cls := cls + [c];
      }
      ListsSet(cls, Audience(senderID));
    }

    /** A worker serves exactly the registered clients whose id hashes to its position. */
    lemma ServesWhoHashesHere(i: nat)
      requires Sharded() && i < |workers|
      ensures forall id :: id in workers[i].clients <==> id in clients && Index(id) == i
      ensures forall id | id in workers[i].clients :: workers[i].clients[id] == clients[id] && clients[id].id == id
    {
      hide Hash;
      var w := workers[i];
      forall id
        ensures id in w.clients <==> id in clients && Index(id) == i
        ensures id in w.clients ==> w.clients[id] == clients[id] && clients[id].id == id
      {
        if id in clients {
          assert clients[id].worker == workers[Index(id)];
        }
      }
    }

    /** The ids that hash to the first `n` workers. */
    ghost function HashedBelow(n: nat): set<ID>
      requires |workers| > 0
      reads this`clients, this`workers
    {
      set id | id in clients && Index(id) < n
    }

    ghost function AudienceBelow(senderID: ID, n: nat): set<Client>
      requires |workers| > 0
      reads this`clients, this`workers
    {
      set id | id in clients && Index(id) < n && id != senderID :: clients[id]
    }

    lemma BroadcastSplits(senderID: ID, i: nat)
      requires Sharded() && i < |workers|
      ensures multiset(AudienceBelow(senderID, i + 1)) ==
              multiset(AudienceBelow(senderID, i)) + multiset(workers[i].Audience(senderID))
    {
      hide Linked, Placed, Hash, Index;
      ServesWhoHashesHere(i);
      IdsAreKeys();
      var below, here := AudienceBelow(senderID, i), workers[i].Audience(senderID);
      assert below + here == AudienceBelow(senderID, i + 1);
      assert below !! here;
    }

    /**
      One list of receivers per worker: together they are the flat broadcast's receivers, every registered
      client but the sender in one list, once.
     */
    method SendBroadcastMsgWorkers(senderID: ID) returns (lists: seq<seq<Client>>)
      requires Valid()
      ensures |lists| == |workers| && multiset(Flatten(lists)) == multiset(Audience(senderID))
      ensures forall i, c | 0 <= i < |lists| && c in lists[i] ::
                c.id in clients && clients[c.id] == c && c.id != senderID
      ensures forall id | id in clients && id != senderID :: exists i :: 0 <= i < |lists| && clients[id] in lists[i]
      ensures forall i, k, l | 0 <= i < |lists| && 0 <= k < l < |lists[i]| :: lists[i][k] != lists[i][l]
      ensures forall i, j, c | 0 <= i < j < |lists| && c in lists[i] :: c !in lists[j]
    {
      hide Linked, RoomsLinked, LeavingRooms, Registered, Placed, Sharded, Roomed, Flatten;
      IdsAreKeys();
      lists := BroadcastLists(senderID);
      FlattenShares(lists, Audience(senderID));
      forall i, c | 0 <= i < |lists| && c in lists[i]
        ensures c.id in clients && clients[c.id] == c && c.id != senderID
      {
        assert c in Audience(senderID);
      }
      forall id | id in clients && id != senderID
        ensures exists i :: 0 <= i < |lists| && clients[id] in lists[i]
      {
        assert clients[id] in Audience(senderID);
      }
    }

    method BroadcastLists(senderID: ID) returns (lists: seq<seq<Client>>)
      requires Valid()
      ensures |lists| == |workers| && multiset(Flatten(lists)) == multiset(Audience(senderID))
    {
      hide Linked, RoomsLinked, LeavingRooms, Registered, Placed, Roomed, Hash, AudienceBelow, Index;
      AudienceBelowEnds(senderID);
      lists := [];
      for i := 0 to |workers|
        invariant |lists| == i && multiset(Flatten(lists)) == multiset(AudienceBelow(senderID, i))
      {
        ServesWhoHashesHere(i);
        var cls := workers[i].SendBroadcastMsg(senderID);
        BroadcastSplits(senderID, i);
        FlattenAppend(lists, cls);
        lists := lists + [cls];
      }
    }

    lemma AudienceBelowEnds(senderID: ID)
      requires |workers| > 0
      ensures AudienceBelow(senderID, 0) == {} && AudienceBelow(senderID, |workers|) == Audience(senderID)
    {
    }

    /** The room members a room message of `senderID` reaches. */
    ghost function RoomAudience(senderID: ID, room: Room): set<Client>
      reads room
    {
      set id | id in room.clients && id != senderID :: room.clients[id]
    }

    lemma MembersAreRegistered(room: Room)
      requires Roomed() && room.id in rooms && rooms[room.id] == room
      ensures forall id | id in room.clients ::
                id in clients && room.clients[id] == clients[id] && clients[id].id == id
    {
      forall id | id in room.clients
        ensures id in clients && room.clients[id] == clients[id] && clients[id].id == id
      {
        assert rooms[room.id].clients.Keys <= clients.Keys;
        assert room.id in clients[id].rooms;
      }
    }

    /** The members of a room other than the sender, as both room sends collect them. */
    method Collect(senderID: ID, room: Room) returns (cls: seq<Client>)
      requires forall id | id in room.clients :: room.clients[id].id == id
      ensures multiset(cls) == multiset(RoomAudience(senderID, room))
      ensures forall c | c in cls :: c.id in room.clients && room.clients[c.id] == c && c.id != senderID
      ensures forall id | id in room.clients && id != senderID :: room.clients[id] in cls
      ensures forall i, j | 0 <= i < j < |cls| :: cls[i] != cls[j]
    {
      cls := [];
      var todo := room.clients.Keys;
      while todo != {}
        invariant todo <= room.clients.Keys
        invariant multiset(cls) ==
                  multiset(set id | id in room.clients && id !in todo && id != senderID :: room.clients[id])
        decreases todo
      {
        var id :| id in todo;
        ghost var done := set id | id in room.clients && id !in todo && id != senderID :: room.clients[id];
        todo := todo - {id};
        var c := room.clients[id];
        if c.id == senderID {
          assert done == set id | id in room.clients && id !in todo && id != senderID :: room.clients[id];
          continue;
        }
        assert done + {c} == set id | id in room.clients && id !in todo && id != senderID :: room.clients[id];
        cls := cls + [c];
      }
      ListsSet(cls, RoomAudience(senderID, room));
    }

    method SendRoomMsg(senderID: ID, roomID: ID) returns (cls: Option<seq<Client>>)
      requires Valid()
      ensures cls.Some? <==> roomID in rooms
      ensures cls.Some? ==> multiset(cls.value) == multiset(RoomAudience(senderID, rooms[roomID]))
      ensures cls.Some? ==> forall c | c in cls.value ::
                              c.id in rooms[roomID].clients && rooms[roomID].clients[c.id] == c && c.id != senderID
      ensures cls.Some? ==> forall id | id in rooms[roomID].clients && id != senderID ::
                              rooms[roomID].clients[id] in cls.value
      ensures cls.Some? ==> forall i, j | 0 <= i < j < |cls.value| :: cls.value[i] != cls.value[j]
    {
      hide Linked, RoomsLinked, LeavingRooms, Registered, Placed, Sharded, Roomed, Hash, RoomAudience;
      if roomID !in rooms {
        return None;
      }
      RoomIds();
      var room := rooms[roomID];
      MembersAreRegistered(room);
      var receivers := Collect(senderID, room);
      return Some(receivers);
    }

    lemma RoomIds()
      requires Roomed()
      ensures forall r | r in rooms :: rooms[r].id == r
    {
    }

    /** Handing the members to one more worker. */
    lemma RoomSplits(cls: seq<Client>, i: nat)
      requires Sharded() && i < |workers|
      requires forall c | c in cls :: c.id in clients && clients[c.id] == c
      ensures forall c | c in cls && c.id in workers[i].clients :: workers[i].clients[c.id] == c
      ensures multiset(Filter(ServedBy(HashedBelow(i + 1)), cls)) ==
              multiset(Filter(ServedBy(HashedBelow(i)), cls)) + multiset(Filter(ServedBy(workers[i].clients.Keys), cls))
    {
      hide Linked, Placed, Hash, Index;
      ServesWhoHashesHere(i);
      FilterSplits(ServedBy(HashedBelow(i)), ServedBy(workers[i].clients.Keys), ServedBy(HashedBelow(i + 1)), cls);
    }

    lemma HashedBelowEnds(cls: seq<Client>)
      requires |workers| > 0 && forall c | c in cls :: c.id in clients
      ensures Filter(ServedBy(HashedBelow(0)), cls) == []
      ensures Filter(ServedBy(HashedBelow(|workers|)), cls) == cls
    {
      FilterNone(ServedBy(HashedBelow(0)), cls);
      FilterAll(ServedBy(HashedBelow(|workers|)), cls);
    }

    /**
      One list of receivers per worker: together they are the flat room send's receivers, every member but the
      sender in one list, once.
     */
    method SendRoomMsgWorkers(senderID: ID, roomID: ID) returns (lists: Option<seq<seq<Client>>>)
      requires Valid()
      ensures lists.Some? <==> roomID in rooms
      ensures lists.Some? ==>
                |lists.value| == |workers|
                && multiset(Flatten(lists.value)) == multiset(RoomAudience(senderID, rooms[roomID]))
      ensures lists.Some? ==> forall i, c | 0 <= i < |lists.value| && c in lists.value[i] ::
                                c.id in rooms[roomID].clients && rooms[roomID].clients[c.id] == c && c.id != senderID
      ensures lists.Some? ==> forall id | id in rooms[roomID].clients && id != senderID ::
                                exists i :: 0 <= i < |lists.value| && rooms[roomID].clients[id] in lists.value[i]
      ensures lists.Some? ==> forall i, k, l | 0 <= i < |lists.value| && 0 <= k < l < |lists.value[i]| ::
                                lists.value[i][k] != lists.value[i][l]
      ensures lists.Some? ==> forall i, j, c | 0 <= i < j < |lists.value| && c in lists.value[i] :: c !in lists.value[j]
    {
      hide Linked, RoomsLinked, LeavingRooms, Registered, Placed, Sharded, Roomed, Hash, Flatten;
      lists := RoomLists(senderID, roomID);
      if lists.Some? {
        var room := rooms[roomID];
        RoomIds();
        MembersAreRegistered(room);
        FlattenShares(lists.value, RoomAudience(senderID, room));
        forall i, c | 0 <= i < |lists.value| && c in lists.value[i]
          ensures c.id in room.clients && room.clients[c.id] == c && c.id != senderID
        {
          assert c in RoomAudience(senderID, room);
        }
        forall id | id in room.clients && id != senderID
          ensures exists i :: 0 <= i < |lists.value| && room.clients[id] in lists.value[i]
        {
          assert room.clients[id] in RoomAudience(senderID, room);
        }
      }
    }

    method RoomLists(senderID: ID, roomID: ID) returns (lists: Option<seq<seq<Client>>>)
      requires Valid()
      ensures lists.Some? <==> roomID in rooms
      ensures lists.Some? ==>
                |lists.value| == |workers|
                && multiset(Flatten(lists.value)) == multiset(RoomAudience(senderID, rooms[roomID]))
    {
      hide Linked, RoomsLinked, LeavingRooms, Registered, Placed, Sharded, Roomed, Hash;
      if roomID !in rooms {
        return None;
      }
      RoomIds();
      var room := rooms[roomID];
      MembersAreRegistered(room);
      var cls := Collect(senderID, room);
      forall c | c in cls
        ensures c.id in clients && clients[c.id] == c
      {
        assert c in multiset(cls);
        assert c in RoomAudience(senderID, room);
      }
      var perWorker := FanOut(cls);
      return Some(perWorker);
    }

    lemma NothingSent()
      ensures Flatten<Client>([]) == []
    {
    }

    lemma OneMoreList(lists: seq<seq<Client>>, list: seq<Client>, cls: seq<Client>, i: nat)
      requires Sharded() && i < |workers|
      requires forall c | c in cls :: c.id in clients && clients[c.id] == c
      requires multiset(Flatten(lists)) == multiset(Filter(ServedBy(HashedBelow(i)), cls))
      requires list == Filter(ServedBy(workers[i].clients.Keys), cls)
      ensures multiset(Flatten(lists + [list])) == multiset(Filter(ServedBy(HashedBelow(i + 1)), cls))
    {
      hide Linked, Placed, Hash, Index, HashedBelow, ServedBy, Filter, Flatten;
      RoomSplits(cls, i);
      FlattenAppend(lists, list);
    }

    method FanOut(cls: seq<Client>) returns (lists: seq<seq<Client>>)
      requires Sharded() && forall c | c in cls :: c.id in clients && clients[c.id] == c
      ensures |lists| == |workers| && multiset(Flatten(lists)) == multiset(cls)
    {
      hide Linked, Placed, Sharded, Hash, Index, HashedBelow, ServedBy, Filter, Flatten;
      IdsAreKeys();
      HashedBelowEnds(cls);
      NothingSent();
      lists := [];
      for i := 0 to |workers|
        invariant |lists| == i && multiset(Flatten(lists)) == multiset(Filter(ServedBy(HashedBelow(i)), cls))
      {
        RoomSplits(cls, i);
        var workerClients := workers[i].SendRoomMsg(cls);
        OneMoreList(lists, workerClients, cls, i);
        lists := lists + [workerClients];
      }
    }
  }
}
