/** Conversions between the engine's coordinate space RUF (x right, y up,
    z forward, left-handed) and the coordinate spaces of the robotics stack:
    the body frames FLU (x forward, y left, z up) and FRD (x forward, y right,
    z down) of REP 103 "Standard Units of Measure and Coordinate Conventions",
    their aliases ENULocal and NEDLocal, and the compass-based NED and ENU.
    Also the selection of a space by the value of a closed enumeration. */
module CoordinateSpaces {
  import opened Geometry

  datatype Option<T> = None | Some(value: T)
  {
    function GetOr(default: T): T
    {
      if Some? then value else default
    }
  }

  // ---------------------------------------------------------------------------
  // Reference: what the components of a vector mean in each axis convention
  // ---------------------------------------------------------------------------

  /** Physical directions relative to the body (or the camera) */
  datatype Direction = Right | Left | Up | Down | Forward | Back

  /** The axis conventions: which physical direction x, y and z point to */
  datatype Axes = RightUpForward | ForwardLeftUp | ForwardRightDown

  /** The signed length of `v`, read in the convention `axes`, along the
      physical direction `d`. Two vectors in two conventions denote the same
      physical vector when they agree on every direction. */
  function Along(axes: Axes, v: Vector3, d: Direction): real
  {
    match axes
    case RightUpForward =>
      (match d
       case Right => v.x  case Left => -v.x
       case Up => v.y     case Down => -v.y
       case Forward => v.z case Back => -v.z)
    case ForwardLeftUp =>
      (match d
       case Forward => v.x case Back => -v.x
       case Left => v.y    case Right => -v.y
       case Up => v.z      case Down => -v.z)
    case ForwardRightDown =>
      (match d
       case Forward => v.x case Back => -v.x
       case Right => v.y   case Left => -v.y
       case Down => v.z    case Up => -v.z)
  }

  /** Within one convention, a vector is determined by its readings. */
  lemma {:induction false} AlongDetermines(axes: Axes, u: Vector3, v: Vector3)
    requires forall d :: Along(axes, u, d) == Along(axes, v, d)
    ensures u == v
  {
    assert Along(axes, u, Forward) == Along(axes, v, Forward);
    assert Along(axes, u, Right) == Along(axes, v, Right);
    assert Along(axes, u, Up) == Along(axes, v, Up);
  }

  // ---------------------------------------------------------------------------
  // class FLU (ENULocal inherits it)
  // ---------------------------------------------------------------------------

  /** FLU.ConvertFromRUF(Vector3) */
  function FluFromRUF(v: Vector3): (r: Vector3)
    ensures forall d :: Along(ForwardLeftUp, r, d) == Along(RightUpForward, v, d)
  {
    Vector3(v.z, -v.x, v.y)
  }

  /** FLU.ConvertToRUF(Vector3) */
  function FluToRUF(v: Vector3): (r: Vector3)
    ensures forall d :: Along(RightUpForward, r, d) == Along(ForwardLeftUp, v, d)
  {
    Vector3(-v.y, v.z, v.x)
  }

  /** FLU.ConvertFromRUF(Quaternion): the rotation axis is carried like a
      vector and the scalar part is negated, because the handedness changes. */
  function FluQuaternionFromRUF(q: Quaternion): (r: Quaternion)
    ensures r.w == -q.w
    ensures forall d :: Along(ForwardLeftUp, Imag(r), d) == Along(RightUpForward, Imag(q), d)
  {
    Quaternion(q.z, -q.x, q.y, -q.w)
  }

  /** FLU.ConvertToRUF(Quaternion) */
  function FluQuaternionToRUF(q: Quaternion): (r: Quaternion)
    ensures r.w == -q.w
    ensures forall d :: Along(RightUpForward, Imag(r), d) == Along(ForwardLeftUp, Imag(q), d)
  {
    Quaternion(-q.y, q.z, q.x, -q.w)
  }

  // ---------------------------------------------------------------------------
  // class FRD (NEDLocal inherits it)
  // ---------------------------------------------------------------------------

  /** FRD.ConvertFromRUF(Vector3) */
  function FrdFromRUF(v: Vector3): (r: Vector3)
    ensures forall d :: Along(ForwardRightDown, r, d) == Along(RightUpForward, v, d)
  {
    Vector3(v.z, v.x, -v.y)
  }

  /** FRD.ConvertToRUF(Vector3) */
  function FrdToRUF(v: Vector3): (r: Vector3)
    ensures forall d :: Along(RightUpForward, r, d) == Along(ForwardRightDown, v, d)
  {
    Vector3(v.y, -v.z, v.x)
  }

  /** FRD.ConvertFromRUF(Quaternion) */
  function FrdQuaternionFromRUF(q: Quaternion): (r: Quaternion)
    ensures r.w == -q.w
    ensures forall d :: Along(ForwardRightDown, Imag(r), d) == Along(RightUpForward, Imag(q), d)
  {
    Quaternion(q.z, q.x, -q.y, -q.w)
  }

  /** FRD.ConvertToRUF(Quaternion) */
  function FrdQuaternionToRUF(q: Quaternion): (r: Quaternion)
    ensures r.w == -q.w
    ensures forall d :: Along(RightUpForward, Imag(r), d) == Along(ForwardRightDown, Imag(q), d)
  {
    Quaternion(q.y, -q.z, q.x, -q.w)
  }

  // ---------------------------------------------------------------------------
  // The classes implementing ICoordinateSpace, dispatched by value
  // ---------------------------------------------------------------------------

  /** The seven classes that implement ICoordinateSpace */
  datatype SpaceClass = RUF | FLU | ENULocal | FRD | NEDLocal | NED | ENU

  /** GeometryCompass, whose conversions depend on a global heading. It is a
      parameter here: one value stands for one consistent heading. */
  datatype Compass = Compass(
    toNED: Vector3 -> Vector3, fromNED: Vector3 -> Vector3,
    toNEDQuaternion: Quaternion -> Quaternion, fromNEDQuaternion: Quaternion -> Quaternion,
    toENU: Vector3 -> Vector3, fromENU: Vector3 -> Vector3,
    toENUQuaternion: Quaternion -> Quaternion, fromENUQuaternion: Quaternion -> Quaternion)

  /** At a fixed heading, each compass conversion is undone by its partner. */
  ghost predicate Invertible(c: Compass)
  {
    (forall v :: c.fromNED(c.toNED(v)) == v && c.toNED(c.fromNED(v)) == v) &&
    (forall v :: c.fromENU(c.toENU(v)) == v && c.toENU(c.fromENU(v)) == v) &&
    (forall q :: c.fromNEDQuaternion(c.toNEDQuaternion(q)) == q &&
                 c.toNEDQuaternion(c.fromNEDQuaternion(q)) == q) &&
    (forall q :: c.fromENUQuaternion(c.toENUQuaternion(q)) == q &&
                 c.toENUQuaternion(c.fromENUQuaternion(q)) == q)
  }

  /** The spaces whose conversions are fixed maps, independent of the compass */
  predicate IsFixed(s: SpaceClass)
  {
    s != NED && s != ENU
  }

  /** The axis convention of a fixed space */
  function AxesOf(s: SpaceClass): Axes
    requires IsFixed(s)
  {
    match s
    case RUF => RightUpForward
    case FLU => ForwardLeftUp
    case ENULocal => ForwardLeftUp
    case FRD => ForwardRightDown
    case NEDLocal => ForwardRightDown
  }

  /** ICoordinateSpace.ConvertFromRUF(Vector3) on an instance of class `s` */
  function ConvertFromRUF(s: SpaceClass, compass: Compass, v: Vector3): (r: Vector3)
    ensures IsFixed(s) ==> forall d :: Along(AxesOf(s), r, d) == Along(RightUpForward, v, d)
  {
    match s
    case RUF => v
    case FLU => FluFromRUF(v)
    case ENULocal => FluFromRUF(v)
    case FRD => FrdFromRUF(v)
    case NEDLocal => FrdFromRUF(v)
    case NED => var n := compass.toNED(v); Vector3(n.x, n.y, n.z)
    case ENU => var e := compass.toENU(v); Vector3(e.x, e.y, e.z)
  }

  /** ICoordinateSpace.ConvertToRUF(Vector3) on an instance of class `s` */
  function ConvertToRUF(s: SpaceClass, compass: Compass, v: Vector3): (r: Vector3)
    ensures IsFixed(s) ==> forall d :: Along(RightUpForward, r, d) == Along(AxesOf(s), v, d)
  {
    match s
    case RUF => v
    case FLU => FluToRUF(v)
    case ENULocal => FluToRUF(v)
    case FRD => FrdToRUF(v)
    case NEDLocal => FrdToRUF(v)
    case NED => compass.fromNED(Vector3(v.x, v.y, v.z))
    case ENU => compass.fromENU(Vector3(v.x, v.y, v.z))
  }

  /** ICoordinateSpace.ConvertFromRUF(Quaternion) on an instance of class `s` */
  function ConvertQuaternionFromRUF(s: SpaceClass, compass: Compass, q: Quaternion): (r: Quaternion)
    ensures s == RUF ==> r == q
    ensures IsFixed(s) && s != RUF ==> r.w == -q.w
    ensures IsFixed(s) ==>
      forall d :: Along(AxesOf(s), Imag(r), d) == Along(RightUpForward, Imag(q), d)
  {
    match s
    case RUF => q
    case FLU => FluQuaternionFromRUF(q)
    case ENULocal => FluQuaternionFromRUF(q)
    case FRD => FrdQuaternionFromRUF(q)
    case NEDLocal => FrdQuaternionFromRUF(q)
    case NED => var n := compass.toNEDQuaternion(q); Quaternion(n.x, n.y, n.z, n.w)
    case ENU => var e := compass.toENUQuaternion(q); Quaternion(e.x, e.y, e.z, e.w)
  }

  /** ICoordinateSpace.ConvertToRUF(Quaternion) on an instance of class `s` */
  function ConvertQuaternionToRUF(s: SpaceClass, compass: Compass, q: Quaternion): (r: Quaternion)
    ensures s == RUF ==> r == q
    ensures IsFixed(s) && s != RUF ==> r.w == -q.w
    ensures IsFixed(s) ==>
      forall d :: Along(RightUpForward, Imag(r), d) == Along(AxesOf(s), Imag(q), d)
  {
    match s
    case RUF => q
    case FLU => FluQuaternionToRUF(q)
    case ENULocal => FluQuaternionToRUF(q)
    case FRD => FrdQuaternionToRUF(q)
    case NEDLocal => FrdQuaternionToRUF(q)
    case NED => compass.fromNEDQuaternion(Quaternion(q.x, q.y, q.z, q.w))
    case ENU => compass.fromENUQuaternion(Quaternion(q.x, q.y, q.z, q.w))
  }

  // ---------------------------------------------------------------------------
  // Properties of the conversions
  // ---------------------------------------------------------------------------

  /** RUF is the engine's own space: all four conversions are the identity. */
  lemma RufIsIdentity(compass: Compass, v: Vector3, q: Quaternion)
    ensures ConvertFromRUF(RUF, compass, v) == v && ConvertToRUF(RUF, compass, v) == v
    ensures ConvertQuaternionFromRUF(RUF, compass, q) == q
    ensures ConvertQuaternionToRUF(RUF, compass, q) == q
  {
  }

  /** A fixed space's vector conversions undo each other, both ways round.
      Proved from the physical meaning of the conversions alone. */
  lemma {:induction false} FixedVectorRoundTrip(s: SpaceClass, compass: Compass, v: Vector3)
    requires IsFixed(s)
    ensures ConvertToRUF(s, compass, ConvertFromRUF(s, compass, v)) == v
    ensures ConvertFromRUF(s, compass, ConvertToRUF(s, compass, v)) == v
  {
    var there := ConvertFromRUF(s, compass, v);
    var back := ConvertToRUF(s, compass, there);
    forall d ensures Along(RightUpForward, back, d) == Along(RightUpForward, v, d) {
      assert Along(RightUpForward, back, d) == Along(AxesOf(s), there, d);
    }
    AlongDetermines(RightUpForward, back, v);
    var into := ConvertToRUF(s, compass, v);
    var out := ConvertFromRUF(s, compass, into);
    forall d ensures Along(AxesOf(s), out, d) == Along(AxesOf(s), v, d) {
      assert Along(AxesOf(s), out, d) == Along(RightUpForward, into, d);
    }
    AlongDetermines(AxesOf(s), out, v);
  }

  /** A fixed space's quaternion conversions undo each other, both ways round:
      the scalar part is negated twice and the axis part round-trips. */
  lemma {:induction false} FixedQuaternionRoundTrip(s: SpaceClass, compass: Compass, q: Quaternion)
    requires IsFixed(s)
    ensures ConvertQuaternionToRUF(s, compass, ConvertQuaternionFromRUF(s, compass, q)) == q
    ensures ConvertQuaternionFromRUF(s, compass, ConvertQuaternionToRUF(s, compass, q)) == q
  {
    var there := ConvertQuaternionFromRUF(s, compass, q);
    var back := ConvertQuaternionToRUF(s, compass, there);
    forall d ensures Along(RightUpForward, Imag(back), d) == Along(RightUpForward, Imag(q), d) {
      assert Along(RightUpForward, Imag(back), d) == Along(AxesOf(s), Imag(there), d);
    }
    AlongDetermines(RightUpForward, Imag(back), Imag(q));
    var into := ConvertQuaternionToRUF(s, compass, q);
    var out := ConvertQuaternionFromRUF(s, compass, into);
    forall d ensures Along(AxesOf(s), Imag(out), d) == Along(AxesOf(s), Imag(q), d) {
      assert Along(AxesOf(s), Imag(out), d) == Along(RightUpForward, Imag(into), d);
    }
    AlongDetermines(AxesOf(s), Imag(out), Imag(q));
  }

  /** Every space round-trips, the compass-based ones at a fixed heading.
      For NED and ENU this only passes the hypothesis `Invertible(compass)`
      through the component-wise copies the two classes make: it says nothing
      about the compass itself, which is not part of this model. */
  lemma {:induction false} RoundTrip(s: SpaceClass, compass: Compass, v: Vector3, q: Quaternion)
    requires IsFixed(s) || Invertible(compass)
    ensures ConvertToRUF(s, compass, ConvertFromRUF(s, compass, v)) == v
    ensures ConvertFromRUF(s, compass, ConvertToRUF(s, compass, v)) == v
    ensures ConvertQuaternionToRUF(s, compass, ConvertQuaternionFromRUF(s, compass, q)) == q
    ensures ConvertQuaternionFromRUF(s, compass, ConvertQuaternionToRUF(s, compass, q)) == q
  {
    if IsFixed(s) {
      FixedVectorRoundTrip(s, compass, v);
      FixedQuaternionRoundTrip(s, compass, q);
    } else if s == NED {
      assert compass.fromNED(compass.toNED(v)) == v && compass.toNED(compass.fromNED(v)) == v;
      assert compass.fromNEDQuaternion(compass.toNEDQuaternion(q)) == q;
      assert compass.toNEDQuaternion(compass.fromNEDQuaternion(q)) == q;
    } else {
      assert compass.fromENU(compass.toENU(v)) == v && compass.toENU(compass.fromENU(v)) == v;
      assert compass.fromENUQuaternion(compass.toENUQuaternion(q)) == q;
      assert compass.toENUQuaternion(compass.fromENUQuaternion(q)) == q;
    }
  }

  /** ENULocal inherits FLU and NEDLocal inherits FRD: same results in all
      four conversions. */
  lemma LocalAliases(compass: Compass, v: Vector3, q: Quaternion)
    ensures ConvertFromRUF(ENULocal, compass, v) == ConvertFromRUF(FLU, compass, v)
    ensures ConvertToRUF(ENULocal, compass, v) == ConvertToRUF(FLU, compass, v)
    ensures ConvertQuaternionFromRUF(ENULocal, compass, q) == ConvertQuaternionFromRUF(FLU, compass, q)
    ensures ConvertQuaternionToRUF(ENULocal, compass, q) == ConvertQuaternionToRUF(FLU, compass, q)
    ensures ConvertFromRUF(NEDLocal, compass, v) == ConvertFromRUF(FRD, compass, v)
    ensures ConvertToRUF(NEDLocal, compass, v) == ConvertToRUF(FRD, compass, v)
    ensures ConvertQuaternionFromRUF(NEDLocal, compass, q) == ConvertQuaternionFromRUF(FRD, compass, q)
    ensures ConvertQuaternionToRUF(NEDLocal, compass, q) == ConvertQuaternionToRUF(FRD, compass, q)
  {
  }

  /** The fixed spaces, the local aliases among them, never consult the compass. */
  lemma FixedIgnoresCompass(s: SpaceClass, c1: Compass, c2: Compass, v: Vector3, q: Quaternion)
    requires IsFixed(s)
    ensures ConvertFromRUF(s, c1, v) == ConvertFromRUF(s, c2, v)
    ensures ConvertToRUF(s, c1, v) == ConvertToRUF(s, c2, v)
    ensures ConvertQuaternionFromRUF(s, c1, q) == ConvertQuaternionFromRUF(s, c2, q)
    ensures ConvertQuaternionToRUF(s, c1, q) == ConvertQuaternionToRUF(s, c2, q)
  {
  }

  /** In FLU, FRD and their aliases a quaternion converts as its axis part does
      as a vector, with the scalar part negated. */
  lemma {:induction false} QuaternionFollowsVector(s: SpaceClass, compass: Compass, q: Quaternion)
    requires IsFixed(s) && s != RUF
    ensures var r := ConvertQuaternionFromRUF(s, compass, q);
      Imag(r) == ConvertFromRUF(s, compass, Imag(q)) && r.w == -q.w
    ensures var r := ConvertQuaternionToRUF(s, compass, q);
      Imag(r) == ConvertToRUF(s, compass, Imag(q)) && r.w == -q.w
  {
    var r := ConvertQuaternionFromRUF(s, compass, q);
    var u := ConvertFromRUF(s, compass, Imag(q));
    forall d ensures Along(AxesOf(s), Imag(r), d) == Along(AxesOf(s), u, d) {
      assert Along(AxesOf(s), u, d) == Along(RightUpForward, Imag(q), d);
    }
    AlongDetermines(AxesOf(s), Imag(r), u);
    var t := ConvertQuaternionToRUF(s, compass, q);
    var w := ConvertToRUF(s, compass, Imag(q));
    forall d ensures Along(RightUpForward, Imag(t), d) == Along(RightUpForward, w, d) {
      assert Along(RightUpForward, w, d) == Along(AxesOf(s), Imag(q), d);
    }
    AlongDetermines(RightUpForward, Imag(t), w);
  }

  // ---------------------------------------------------------------------------
  // CoordinateSpaceSelection and the From(self, selection) extensions
  // ---------------------------------------------------------------------------

  /** Values of the enumeration CoordinateSpaceSelection. A C# enum variable may
      hold any integer, so a selection is an int. */
  const SelectRUF := 0
  const SelectFLU := 1
  const SelectFRD := 2
  const SelectNED := 3
  const SelectENU := 4
  const SelectNEDLocal := 5
  const SelectENULocal := 6

  /** The members of CoordinateSpaceSelection in declaration order: the member
      at position i has value i and names the class of the same name. */
  const Declared: seq<SpaceClass> := [RUF, FLU, FRD, NED, ENU, NEDLocal, ENULocal]

  /** The space a selection value names, if it names one */
  function Named(selection: int): Option<SpaceClass>
  {
    if 0 <= selection < |Declared| then Some(Declared[selection]) else None
  }

  /** The messages the selection extensions accept */
  datatype PointMsg = PointMsg(x: real, y: real, z: real)
  datatype Point32Msg = Point32Msg(x: real, y: real, z: real)
  datatype Vector3Msg = Vector3Msg(x: real, y: real, z: real)
  datatype QuaternionMsg = QuaternionMsg(x: real, y: real, z: real, w: real)

  /** A result together with whether Debug.LogError was called */
  datatype Reported<T> = Reported(value: T, errorLogged: bool)

  /** The switch statement of each From(self, selection) overload, in its
      case order: the class to use for a selection value, and whether the
      default branch (log an error and fall back to RUF) was taken. Every
      enumeration member selects the class of the same name. */
  function Switch(selection: int): (r: (SpaceClass, bool))
    ensures r.1 <==> Named(selection).None?
    ensures r.0 == Named(selection).GetOr(RUF)
  {
    if selection == SelectRUF then (RUF, false)
    else if selection == SelectFLU then (FLU, false)
    else if selection == SelectFRD then (FRD, false)
    else if selection == SelectENU then (ENU, false)
    else if selection == SelectNED then (NED, false)
    else if selection == SelectENULocal then (ENULocal, false)
    else if selection == SelectNEDLocal then (NEDLocal, false)
    else (RUF, true)
  }

  /** The body shared by the four From(self, selection) overloads, for a
      message type M and a result type R; `from(s, self)` stands for
      self.From<s>(). */
  function FromSelection<M, R>(self: M, selection: int, from: (SpaceClass, M) -> R): (r: Reported<R>)
    ensures r.errorLogged <==> Named(selection).None?
    ensures r.value == from(Named(selection).GetOr(RUF), self)
  {
    var (space, logged) := Switch(selection);
    Reported(from(space, self), logged)
  }

  /** PointMsg.From(selection) */
  function FromPoint(self: PointMsg, selection: int, from: (SpaceClass, PointMsg) -> Vector3): Reported<Vector3>
  {
    FromSelection(self, selection, from)
  }

  /** Point32Msg.From(selection) */
  function FromPoint32(self: Point32Msg, selection: int, from: (SpaceClass, Point32Msg) -> Vector3): Reported<Vector3>
  {
    FromSelection(self, selection, from)
  }

  /** Vector3Msg.From(selection) */
  function FromVector3(self: Vector3Msg, selection: int, from: (SpaceClass, Vector3Msg) -> Vector3): Reported<Vector3>
  {
    FromSelection(self, selection, from)
  }

  /** QuaternionMsg.From(selection) */
  function FromQuaternion(self: QuaternionMsg, selection: int, from: (SpaceClass, QuaternionMsg) -> Quaternion): Reported<Quaternion>
  {
    FromSelection(self, selection, from)
  }
}
