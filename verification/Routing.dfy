/** Routing a single-link SDI input to its frame buffer. The router maps each input crosspoint
    to the output crosspoint that feeds it. */
module Routing {
  import opened Arithmetic

  newtype Channel = x: int | 1 <= x <= 8 witness 1

  /** The crosspoints that a single-link SDI set-up names, and all others. */
  datatype InputXpt =
    | FrameBuffer(ch: Channel)
    | FrameBufferB(ch: Channel)
    | CscVideo(ch: Channel)
    | SdiOut(ch: Channel)
    | OtherInput(n: nat)

  datatype OutputXpt =
    | SdiIn(ch: Channel)
    | CscRgb(ch: Channel)
    | CscYuv(ch: Channel)
    | OtherOutput(n: nat)

  type Router = map<InputXpt, OutputXpt>

  /** What set-up depends on: the channel, whether frames are wanted as RGB, and whether the
      device has bidirectional SDI connectors. SDI delivers YUV, so RGB needs a conversion. */
  datatype Setup = Setup(ch: Channel, rgba: bool, bidirectional: bool)

  function CscOutput(u: Setup): OutputXpt { if u.rgba then CscRgb(u.ch) else CscYuv(u.ch) }

  /** The second inputs of frame buffers that an SDI input takes part in for quad-link modes. */
  predicate QuadPartner(ch: Channel, i: InputXpt) {
    || ((ch == 6 || ch == 8) && i == FrameBufferB(6))
    || ((ch == 5 || ch == 6) && i == FrameBufferB(5))
    || ((ch == 4 || ch == 2) && i == FrameBufferB(2))
    || ((ch == 1 || ch == 2) && i == FrameBufferB(1))
  }

  predicate Conflicts(u: Setup, i: InputXpt, o: OutputXpt) {
    i == FrameBuffer(u.ch) || i == CscVideo(u.ch) || o == SdiIn(u.ch) || QuadPartner(u.ch, i)
  }

  function Disconnected(r: Router, u: Setup): Router { map i | i in r && !Conflicts(u, i, r[i]) :: r[i] }

  function Connected(r: Router, u: Setup): Router {
    var r1 := if !u.rgba then r[FrameBuffer(u.ch) := SdiIn(u.ch)]
              else r[CscVideo(u.ch) := SdiIn(u.ch)][FrameBuffer(u.ch) := CscOutput(u)];
    if !u.bidirectional && u.ch <= 4 then r1[SdiOut(u.ch) := SdiIn(u.ch)] else r1
  }

  function Routed(r: Router, u: Setup): Router { Connected(Disconnected(r, u), u) }

  /** RemoveConnection: removes the pair if it is there. */
  function Removed(r: Router, i: InputXpt, o: OutputXpt): Router { if i in r && r[i] == o then r - {i} else r }

  /** The routing part of SetupVideo, for a single link without passthrough. */
  method SetupRouting(current: Router, u: Setup) returns (router: Router)
    ensures router == Routed(current, u)
  {
    router := current;
    var connections := current;
    var rest := connections.Keys;
    while rest != {}
      invariant rest <= connections.Keys
      invariant forall i :: i in router ==> i in connections && router[i] == connections[i]
      invariant forall i :: i in rest ==> i in router
      invariant forall i :: i in connections && i !in rest ==> (i in router <==> !Conflicts(u, i, connections[i]))
      decreases rest
    {
      var i :| i in rest;
      var o := connections[i];
      rest := rest - {i};
      if i == FrameBuffer(u.ch) || o == SdiIn(u.ch) {
        router := Removed(router, i, o);
      }
      if i == CscVideo(u.ch) || o == SdiIn(u.ch) {
        router := Removed(router, i, o);
      }
      if QuadPartner(u.ch, i) {
        router := Removed(router, i, o);
      }
    }
    assert router == Disconnected(current, u);
    if !u.rgba {
      router := router[FrameBuffer(u.ch) := SdiIn(u.ch)];
    } else {
      router := router[CscVideo(u.ch) := SdiIn(u.ch)];
      router := router[FrameBuffer(u.ch) := CscOutput(u)];
    }
    if !u.bidirectional {
      if u.ch == 1 {
        router := router[SdiOut(1) := SdiIn(1)];
      } else if u.ch == 2 {
        router := router[SdiOut(2) := SdiIn(2)];
      } else if u.ch == 3 {
        router := router[SdiOut(3) := SdiIn(3)];
      } else if u.ch == 4 {
        router := router[SdiOut(4) := SdiIn(4)];
      }
    }
  }

  /** What a frame buffer shows: the SDI input it is fed from, directly or through the colour
      converter of a channel. */
  function Source(r: Router, i: InputXpt): Option<(Channel, bool)> {
    if i !in r then None
    else
      match r[i]
      case SdiIn(c) => Some((c, false))
      case CscRgb(c) => if CscVideo(c) in r && r[CscVideo(c)].SdiIn? then Some((r[CscVideo(c)].ch, true)) else None
      case _ => None
  }

  /** After set-up, whatever the router contained: the channel's frame buffer shows the channel's
      SDI input, through the converter exactly when RGB is wanted; that input feeds nothing else
      but the loop-through output; and connections that do not conflict are as before. */
  lemma SetupConnects(r: Router, u: Setup)
    ensures
      var r' := Routed(r, u);
      && Source(r', FrameBuffer(u.ch)) == Some((u.ch, u.rgba))
      && (forall i :: i in r' && r'[i] == SdiIn(u.ch) <==>
            i == (if u.rgba then CscVideo(u.ch) else FrameBuffer(u.ch))
            || (!u.bidirectional && u.ch <= 4 && i == SdiOut(u.ch)))
      && (forall i :: i in r && !Conflicts(u, i, r[i]) && i != SdiOut(u.ch) ==> i in r' && r'[i] == r[i])
  {}

  /** The second inputs of frame buffers in which a channel takes part for quad-link modes. */
  function Partners(ch: Channel): set<InputXpt> {
    match ch as int
    case 1 => {FrameBufferB(1)}
    case 2 => {FrameBufferB(1), FrameBufferB(2)}
    case 4 => {FrameBufferB(2)}
    case 5 => {FrameBufferB(5)}
    case 6 => {FrameBufferB(5), FrameBufferB(6)}
    case 8 => {FrameBufferB(6)}
    case _ => {}
  }

  /** What set-up leaves, told without the loop over the old connections: nothing at the channel's
      quad-link partners, nothing at its converter unless it is used, and every old connection that is at
      none of these, nor at its frame buffer or loop-through, nor fed by its input. */
  lemma SetupLeaves(r: Router, u: Setup, i: InputXpt)
    ensures
      var r' := Routed(r, u);
      && (i in Partners(u.ch) ==> i !in r')
      && (!u.rgba ==> CscVideo(u.ch) !in r')
      && (i !in Partners(u.ch) + {FrameBuffer(u.ch), CscVideo(u.ch), SdiOut(u.ch)} ==>
            (i in r' <==> i in r && r[i] != SdiIn(u.ch)) && (i in r' ==> r'[i] == r[i]))
  {}

  function Lookup(r: Router, i: InputXpt): Option<OutputXpt> { if i in r then Some(r[i]) else None }

  /** The connection that set-up makes at an input crosspoint, if any. */
  function Made(u: Setup, i: InputXpt): Option<OutputXpt> {
    if i == FrameBuffer(u.ch) then Some(if u.rgba then CscOutput(u) else SdiIn(u.ch))
    else if i == CscVideo(u.ch) && u.rgba then Some(SdiIn(u.ch))
    else if i == SdiOut(u.ch) && !u.bidirectional && u.ch <= 4 then Some(SdiIn(u.ch))
    else None
  }

  /** Set-up, one crosspoint at a time: its own connections win, conflicting ones go, the rest
      stay. */
  lemma RoutedAt(r: Router, u: Setup, i: InputXpt)
    ensures Lookup(Routed(r, u), i) ==
      if Made(u, i).Some? then Made(u, i)
      else if i in r && !Conflicts(u, i, r[i]) then Some(r[i])
      else None
  {}

  lemma SameLookups(r: Router, q: Router)
    requires forall i :: Lookup(r, i) == Lookup(q, i)
    ensures r == q
  {
    forall i ensures (i in r <==> i in q) && (i in r ==> r[i] == q[i]) {
      assert Lookup(r, i) == Lookup(q, i);
    }
  }

  lemma SetupIdempotent(r: Router, u: Setup)
    ensures Routed(Routed(r, u), u) == Routed(r, u)
  {
    forall i ensures Lookup(Routed(Routed(r, u), u), i) == Lookup(Routed(r, u), i) {
      RoutedAt(r, u, i);
      RoutedAt(Routed(r, u), u, i);
    }
    SameLookups(Routed(Routed(r, u), u), Routed(r, u));
  }

  /** Set-ups of two channels commute, so the order in which they get the set-up lock does not
      matter. */
  lemma SetupsCommute(r: Router, u: Setup, v: Setup)
    requires u.ch != v.ch
    ensures Routed(Routed(r, u), v) == Routed(Routed(r, v), u)
  {
    forall i ensures Lookup(Routed(Routed(r, u), v), i) == Lookup(Routed(Routed(r, v), u), i) {
      RoutedAt(r, u, i);
      RoutedAt(r, v, i);
      RoutedAt(Routed(r, u), v, i);
      RoutedAt(Routed(r, v), u, i);
    }
    SameLookups(Routed(Routed(r, u), v), Routed(Routed(r, v), u));
  }

  /** Setting up another channel afterwards leaves what a channel shows alone. */
  lemma SetupKeepsOthers(r: Router, u: Setup, v: Setup)
    requires u.ch != v.ch
    ensures Source(Routed(Routed(r, u), v), FrameBuffer(u.ch)) == Some((u.ch, u.rgba))
  {
    SetupsCommute(r, u, v);
    SetupConnects(Routed(r, v), u);
  }
}
