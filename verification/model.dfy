/** Simulation state of the load-balancing visualiser: the fleet of servers, the
    clients, and the drag-arrow fields, with the program's compiled-in constants.

    The program stores every quantity as a 32-bit float. This model uses `real`
    instead: every rule of the core is a threshold or an argmin comparison, so
    exact arithmetic keeps the decisions while dropping float rounding.
 */
module Model {

  /** Window size in pixels. */
  const WindowWidth: nat := 800
  const WindowHeight: nat := 600

  /** The fleet never grows beyond this many servers. */
  const MaxServers: nat := 5

  /** Capacity of every server the program creates. */
  const InitialMaxCapacity: real := 1.0

  /** Height given to a freshly created server, before any load is applied. */
  const FreshHeight: real := 0.1

  /** Load added to the matched server on every mouse release. */
  const LoadStep: real := 0.1

  /** Vertical position and nominal load of every client. */
  const ClientY: real := -0.5
  const ClientLoad: real := 0.1

  datatype Server = Server(load: real, height: real, maxCapacity: real, x: real)

  datatype Client = Client(x: real, y: real, load: real)

  /** Servers and clients in insertion order, plus the drag flag and the
      start and end points of the arrow. */
  datatype State = State(
    servers: seq<Server>,
    clients: seq<Client>,
    drawing: bool,
    startX: real,
    startY: real,
    endX: real,
    endY: real)

  /** Horizontal slot of the server created when the fleet holds `count` servers. */
  function SlotX(count: nat): real
  {
    (count as real) * 0.2 - 0.5
  }

  /** The server appended when the fleet holds `count` servers: no load, a
      small visible height, unit capacity, placed at the next slot. */
  function FreshServer(count: nat): (s: Server)
    ensures s.load == 0.0 && s.height == FreshHeight
    ensures s.maxCapacity == InitialMaxCapacity
    ensures s.x == SlotX(count)
  {
    Server(0.0, FreshHeight, InitialMaxCapacity, SlotX(count))
  }

  /** Program start: one server at x = -0.5, no clients, no drag in progress;
      the drag coordinates are globals and so start at zero. */
  function Init(): (s: State)
    ensures |s.servers| == 1 && s.servers[0].x == -0.5
    ensures s.servers[0].load == 0.0 && s.servers[0].height == FreshHeight
    ensures s.clients == [] && !s.drawing
  {
    State([FreshServer(0)], [], false, 0.0, 0.0, 0.0, 0.0)
  }
}
