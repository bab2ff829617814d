/** The input handlers: pixel-to-normalised coordinate mapping, the keyboard
    (add a client, quit), and the mouse press / motion / release transitions
    that drag an arrow and bump the nearest server's load on release. */
module Input {
  import opened Model
  import LoadUpdater
  import Matcher

  /** The keys the keyboard handler reacts to. */
  const AddClientKey: char := 'c'
  const EscapeKey: char := 27 as char

  /** Left edge and width of the band client x positions are drawn from. */
  const ClientBandLeft: real := -0.75
  const ClientBandWidth: real := 1.5

  datatype Button = LeftButton | MiddleButton | RightButton

  datatype ButtonState = Down | Up

  /** One input event. A key press carries the value the C library's `rand()`
      would return if the handler called it. */
  datatype Event =
    | KeyPress(key: char, draw: nat)
    | MouseButton(button: Button, state: ButtonState, px: int, py: int)
    | MouseMotion(px: int, py: int)

  /** The program either keeps running with a new state or has exited. */
  datatype Status = Running(state: State) | Exited

  /** Horizontal pixel to normalised device coordinate. */
  function NdcX(px: int): (r: real)
    ensures 0 <= px <= WindowWidth ==> -1.0 <= r <= 1.0
  {
    (px as real / WindowWidth as real) * 2.0 - 1.0
  }

  /** Vertical pixel to normalised device coordinate; the y axis is flipped
      because pixel rows grow downwards. */
  function NdcY(py: int): (r: real)
    ensures 0 <= py <= WindowHeight ==> -1.0 <= r <= 1.0
  {
    -((py as real / WindowHeight as real) * 2.0 - 1.0)
  }

  /** Inverse mappings back to (fractional) pixels. */
  function PixelX(ndc: real): real
  {
    (ndc + 1.0) / 2.0 * WindowWidth as real
  }

  function PixelY(ndc: real): real
  {
    (1.0 - ndc) / 2.0 * WindowHeight as real
  }

  /** The mapping is invertible, so distinct pixels give distinct points, and it
      sends the window's corners to the corners of the normalised square. */
  lemma NdcRoundTrip(px: int, py: int)
    ensures PixelX(NdcX(px)) == px as real
    ensures PixelY(NdcY(py)) == py as real
    ensures NdcX(0) == -1.0 && NdcX(WindowWidth) == 1.0
    ensures NdcY(0) == 1.0 && NdcY(WindowHeight) == -1.0
  {
  }

  /** Moving right moves right; moving down moves down. */
  lemma NdcOrder(p: int, q: int)
    requires p < q
    ensures NdcX(p) < NdcX(q)
    ensures NdcY(q) < NdcY(p)
  {
  }

  /** `addClient`: one client at the bottom row, at a horizontal position drawn
      uniformly from the band by `draw` out of `randMax`. Servers and the drag
      are left alone. */
  function AddClient(s: State, draw: nat, randMax: nat): (r: State)
    requires 0 < randMax && draw <= randMax
    ensures |r.clients| == |s.clients| + 1 && r.clients[..|s.clients|] == s.clients
    ensures r.clients[|s.clients|].y == ClientY && r.clients[|s.clients|].load == ClientLoad
    ensures ClientBandLeft <= r.clients[|s.clients|].x <= ClientBandLeft + ClientBandWidth
    ensures r.servers == s.servers && r.drawing == s.drawing
    ensures r.(clients := s.clients) == s
  {
    var scale := randMax as real / ClientBandWidth;
    var x := ClientBandLeft + draw as real / scale;
    assert 0.0 <= draw as real / scale <= ClientBandWidth by {
      assert draw as real / scale == ClientBandWidth * (draw as real / randMax as real);
      assert draw as real / randMax as real <= 1.0;
    }
    s.(clients := s.clients + [Client(x, ClientY, ClientLoad)])
  }

  /** `keyboard`: 'c' adds a client, Escape ends the program, every other key
      is ignored. */
  function Keyboard(s: State, key: char, draw: nat, randMax: nat): (r: Status)
    requires 0 < randMax && draw <= randMax
    ensures r.Exited? <==> key == EscapeKey
    ensures key == AddClientKey ==> r == Running(AddClient(s, draw, randMax))
    ensures key != AddClientKey && key != EscapeKey ==> r == Running(s)
  {
    if key == AddClientKey then Running(AddClient(s, draw, randMax))
    else if key == EscapeKey then Exited
    else Running(s)
  }

  /** Left button down: a drag starts at the pressed point. The end point keeps
      its previous value until the pointer moves or the button is released. */
  function Press(s: State, px: int, py: int): (r: State)
    ensures r.drawing && r.startX == NdcX(px) && r.startY == NdcY(py)
    ensures r.(drawing := s.drawing, startX := s.startX, startY := s.startY) == s
  {
    s.(drawing := true, startX := NdcX(px), startY := NdcY(py))
  }

  /** `motion`: while a drag is in progress the end point follows the pointer;
      otherwise nothing changes. */
  function Motion(s: State, px: int, py: int): (r: State)
    ensures s.drawing ==> r.endX == NdcX(px) && r.endY == NdcY(py)
    ensures r.(endX := s.endX, endY := s.endY) == s
    ensures !s.drawing ==> r == s
  {
    if s.drawing then s.(endX := NdcX(px), endY := NdcY(py)) else s
  }

  /** Left button up: the drag ends at the released point, the matcher runs on
      that point whether or not a press came first, and the matched server (if
      any) receives one load step. */
  function Release(s: State, px: int, py: int): (r: State)
    ensures !r.drawing && r.endX == NdcX(px) && r.endY == NdcY(py)
    ensures r.clients == s.clients && r.startX == s.startX && r.startY == s.startY
    ensures |s.servers| <= |r.servers| <= |s.servers| + 1
    // no server within the sentinel distance: the fleet is untouched
    ensures (forall i :: 0 <= i < |s.servers| ==>
               Matcher.Dist2(s.servers[i], NdcX(px), NdcY(py)) >= Matcher.SentinelSquared)
            ==> r.servers == s.servers
    // otherwise the fleet is what `increaseLoad` makes of it with one load
    // step on the first nearest server: that server's load rises (saturating
    // at 1.0) and its height follows, every other server is untouched, and a
    // fresh server is appended exactly when the growth rule fires
    ensures forall k :: 0 <= k < |s.servers| && Matcher.FirstNearest(s.servers, NdcX(px), NdcY(py), |s.servers|, k) ==>
              r.servers == LoadUpdater.IncreaseLoad(s.servers, k, LoadStep)
  {
    var endX := NdcX(px);
    var endY := NdcY(py);
    var k := Matcher.Nearest(s.servers, endX, endY);
    var fleet := if k != -1 then LoadUpdater.IncreaseLoad(s.servers, k, LoadStep) else s.servers;
    s.(drawing := false, endX := endX, endY := endY, servers := fleet)
  }

  /** `mouse`: only the left button does anything. */
  function Mouse(s: State, button: Button, state: ButtonState, px: int, py: int): (r: State)
    ensures button != LeftButton ==> r == s
    ensures button == LeftButton ==> (r.drawing <==> state == Down)
    ensures |s.servers| <= |r.servers|
  {
    if button != LeftButton then s
    else match state
      case Down => Press(s, px, py)
      case Up => Release(s, px, py)
  }

  /** The key events carry a draw the C library could return. */
  predicate ValidEvent(e: Event, randMax: nat)
  {
    e.KeyPress? ==> e.draw <= randMax
  }

  /** One event handled to completion. */
  function Step(s: State, e: Event, randMax: nat): (r: Status)
    requires 0 < randMax && ValidEvent(e, randMax)
    ensures r.Exited? <==> e.KeyPress? && e.key == EscapeKey
    ensures r.Running? && !e.KeyPress? ==> r.state.clients == s.clients
    ensures r.Running? ==> |s.servers| <= |r.state.servers|
  {
    match e
    case KeyPress(key, draw) => Keyboard(s, key, draw, randMax)
    case MouseButton(button, state, px, py) => Running(Mouse(s, button, state, px, py))
    case MouseMotion(px, py) => Running(Motion(s, px, py))
  }

  /** A press, two moves and a release leave no drag in progress, the arrow
      starting at the press point and ending at the release point. */
  lemma DragGesture(s: State, p0: (int, int), p1: (int, int), p2: (int, int), p3: (int, int))
    ensures var r := Release(Motion(Motion(Press(s, p0.0, p0.1), p1.0, p1.1), p2.0, p2.1), p3.0, p3.1);
      && !r.drawing
      && r.startX == NdcX(p0.0) && r.startY == NdcY(p0.1)
      && r.endX == NdcX(p3.0) && r.endY == NdcY(p3.1)
  {
  }

  /** A release with no press before it still bumps the matched server: from
      the start state, releasing anywhere inside the window raises the load of
      the single server by one step. */
  lemma ReleaseWithoutPress(px: int, py: int)
    requires 0 <= px <= WindowWidth && 0 <= py <= WindowHeight
    ensures Release(Init(), px, py).servers[0].load == LoadStep
  {
    var fleet := Init().servers;
    var ex := NdcX(px);
    var ey := NdcY(py);
    var dx := ex - fleet[0].x;
    assert -0.5 <= dx <= 1.5;
    assert dx * dx <= 2.25 by {
      if 0.0 <= dx { assert dx * dx <= dx * 1.5 <= 2.25; }
      else { assert dx * dx <= (-dx) * 0.5 <= 0.25; }
    }
    assert ey * ey <= 1.0 by {
      if 0.0 <= ey { assert ey * ey <= ey * 1.0; }
      else { assert ey * ey <= (-ey) * 1.0; }
    }
    Matcher.LoneServerMatched(fleet[0], ex, ey);
    var bumped := LoadUpdater.IncreaseLoad(fleet, 0, LoadStep);
    assert Release(Init(), px, py).servers == bumped;
  }

  /** At pixel column 240 the release point lies exactly midway between the
      servers at -0.5 and -0.3. The two distances are equal as reals, and the
      model's first-index rule keeps the left server. */
  lemma MidpointTieKeepsFirst(py: int)
    requires 0 <= py <= WindowHeight
    ensures var fleet := [FreshServer(0), FreshServer(1)];
      && Matcher.Dist2(fleet[0], NdcX(240), NdcY(py)) == Matcher.Dist2(fleet[1], NdcX(240), NdcY(py))
      && Matcher.Nearest(fleet, NdcX(240), NdcY(py)) == 0
  {
    var fleet := [FreshServer(0), FreshServer(1)];
    var ey := NdcY(py);
    assert NdcX(240) == -0.4;
    assert ey * ey <= 1.0 by {
      if 0.0 <= ey { assert ey * ey <= ey * 1.0; }
      else { assert ey * ey <= (-ey) * 1.0; }
    }
    assert Matcher.Dist2(fleet[0], -0.4, ey) == 0.01 + ey * ey;
    assert Matcher.Dist2(fleet[1], -0.4, ey) == 0.01 + ey * ey;
    assert Matcher.FirstNearest(fleet, -0.4, ey, 2, 0);
    Matcher.FirstNearestUnique(fleet, -0.4, ey, 2, 0, Matcher.Nearest(fleet, -0.4, ey));
  }
}
