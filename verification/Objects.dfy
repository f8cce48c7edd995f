/** The entities of the broker: connections, services and what travels on the wire. */
module Objects {

  type Bytes = seq<bv8>

  /** Request ids are uint64 on the wire; the broker never computes with them. */
  type RequestId = nat

  datatype ErrorKind = NoSuchService | InvalidIdentification | Timeout | Custom(what: string)

  datatype Answer = Data(bytes: Bytes) | Error(kind: ErrorKind)

  /** Payloads of `log.cellaserv.*` publishes. */
  datatype Event =
    | NewClient(id: string, name: string)
    | LostClient(id: string, name: string)
    | ClientName(id: string, name: string)
    | NewService(owner: string, name: string, ident: string)
    | LostService(owner: string, name: string, ident: string)
    | NewSubscriber(pattern: string, id: string)
    | LostSubscriber(pattern: string, id: string)

  const LOG_PREFIX := "log.cellaserv."

  function Kind(e: Event): string {
    match e
    case ClientName(_, _) => "client-name"
    case LostClient(_, _) => "lost-client"
    case LostService(_, _, _) => "lost-service"
    case LostSubscriber(_, _) => "lost-subscriber"
    case NewClient(_, _) => "new-client"
    case NewService(_, _, _) => "new-service"
    case NewSubscriber(_, _) => "new-subscriber"
  }

  /** The name an event is published under. */
  function Topic(e: Event): string { LOG_PREFIX + Kind(e) }

  datatype Payload = Json(event: Event) | Raw(bytes: Bytes)

  datatype Message =
    | Register(name: string, ident: string)
    | Request(id: RequestId, name: string, ident: string, call: string, data: Bytes)
    | Reply(id: RequestId, answer: Answer)
    | Subscribe(pattern: string)
    | Publish(topic: string, payload: Payload)

  /** A Go slice of clients: a window on a backing array that others may share. */
  datatype Slice = Slice(arr: array<Client>, len: nat)

  /** One connection to the broker. */
  class Client {
    const id: string
    var name: string
    var spying: seq<Service>
    var services: seq<Service>
    var subscribes: seq<string>
    var conn: seq<Message>   // messages written to the connection, oldest first
    var closed: bool         // the broker has closed the connection

    constructor (id: string)
      ensures this.id == id && name == "" && spying == [] && services == []
      ensures subscribes == [] && conn == [] && !closed
    {
      this.id := id;
      name, spying, services, subscribes, conn, closed := "", [], [], [], [], false;
    }
  }

  /** A service registered by a client; `spies` lists clients that get carbon copies. */
  class Service {
    const client: Client
    const name: string
    const ident: string
    var spies: Slice

    constructor (client: Client, name: string, ident: string)
      ensures this.client == client && this.name == name && this.ident == ident
      ensures fresh(spies.arr) && spies.arr.Length == 0 && spies.len == 0
    {
      this.client, this.name, this.ident := client, name, ident;
      var none := new Client[0];
      spies := Slice(none, 0);
    }
  }
}
