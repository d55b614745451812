/** The state the Loco Positioning tab keeps about the positioning system:
    the anchors it has heard of (position and measured distance) and the
    estimated position of the Crazyflie, fed by log and parameter callbacks
    whose variable names are parsed here. */
module LocoPositioning {
  import opened Outcomes
  import opened Text

  // ---------------------------------------------------------------------
  // Names of log variables and parameters
  // ---------------------------------------------------------------------

  /** What a name parser found. The source returns a tuple whose first
      element says whether the name matched; `(False, 0)` is NotMatched. */
  datatype Parsed<+T> = NotMatched | Matched(value: T)

  const RangePrefix: string := "ranging.distance"
  const PositionPrefix: string := "kalman.state"
  const AnchorPrefix: string := "anchorpos.anchor"

  /** The three coordinate names of an anchor. */
  const Axes: set<char> := {'x', 'y', 'z'}

  /** The last character of the position log variables, in axis order. */
  const PositionAxes: string := "XYZ"

  /** `_parse_range_param_name`: the anchor number is the value of the last
      character of a name starting with `ranging.distance`; `int()` raises
      ValueError when that character is not a digit. */
  function ParseRangeParamName(name: string): (r: Result<Parsed<nat>>)
    ensures r == Ok(NotMatched) <==> !StartsWith(name, RangePrefix)
    ensures r.Raise? <==> StartsWith(name, RangePrefix) && !IsDigit(name[|name| - 1])
    ensures r.Raise? ==> r.exc == ValueError
    ensures r.Ok? && r.value.Matched? ==>
      && r.value.value < 10
      && name == RangePrefix + name[|RangePrefix|..|name| - 1] + [DigitChar(r.value.value)]
  {
    if !StartsWith(name, RangePrefix) then Ok(NotMatched)
    else if IsDigit(name[|name| - 1]) then Ok(Matched(DigitValue(name[|name| - 1])))
    else Raise(ValueError)
  }

  /** `_parse_position_param_name`: `X`, `Y` and `Z` at the end of a name
      starting with `kalman.state` give the axes 0, 1 and 2; the dictionary
      lookup raises KeyError for any other last character. */
  function ParsePositionParamName(name: string): (r: Result<Parsed<nat>>)
    ensures r == Ok(NotMatched) <==> !StartsWith(name, PositionPrefix)
    ensures r.Raise? <==> StartsWith(name, PositionPrefix) && name[|name| - 1] !in PositionAxes
    ensures r.Raise? ==> r.exc == KeyError
    ensures r.Ok? && r.value.Matched? ==>
      && r.value.value < 3
      && name[|name| - 1] == PositionAxes[r.value.value]
  {
    if !StartsWith(name, PositionPrefix) then Ok(NotMatched)
    else match name[|name| - 1]
      case 'X' => Ok(Matched(0))
      case 'Y' => Ok(Matched(1))
      case 'Z' => Ok(Matched(2))
      case _ => Raise(KeyError)
  }

  /** An anchor position parameter: the anchor number and the axis character. */
  datatype AnchorParam = AnchorParam(anchor: nat, axis: char)

  /** `_parse_anchor_parameter_name`: after the 16-character prefix
      `anchorpos.anchor`, the character at index 16 is the anchor number and
      the one at index 17 the axis. Indexing past the end raises IndexError
      and a non-digit anchor number raises ValueError, in that order; the
      axis character is not checked here. */
  function ParseAnchorParameterName(name: string): (r: Result<Parsed<AnchorParam>>)
    ensures r == Ok(NotMatched) <==> !StartsWith(name, AnchorPrefix)
    ensures r.Raise? && r.exc == IndexError <==>
      StartsWith(name, AnchorPrefix) && (|name| == 16 || (|name| == 17 && IsDigit(name[16])))
    ensures r.Raise? && r.exc == ValueError <==>
      StartsWith(name, AnchorPrefix) && 16 < |name| && !IsDigit(name[16])
    ensures r.Raise? ==> r.exc == IndexError || r.exc == ValueError
    ensures r.Ok? && r.value.Matched? <==>
      StartsWith(name, AnchorPrefix) && 17 < |name| && IsDigit(name[16])
    ensures r.Ok? && r.value.Matched? ==>
      && r.value.value.anchor < 10
      && name[..|AnchorPrefix| + 2] == AnchorPrefix + [DigitChar(r.value.value.anchor), r.value.value.axis]
  {
    if !StartsWith(name, AnchorPrefix) then Ok(NotMatched)
    else if |name| <= 16 then Raise(IndexError)
    else if !IsDigit(name[16]) then Raise(ValueError)
    else if |name| <= 17 then Raise(IndexError)
    else Ok(Matched(AnchorParam(DigitValue(name[16]), name[17])))
  }

  /** The ranging log variable of anchor `d`, as the tab registers it
      (`ranging.distance0` ... `ranging.distance7`). */
  function RangeParamName(d: nat): string
    requires d < 10
  {
    RangePrefix + [DigitChar(d)]
  }

  /** The position log variable of axis `axis` (`kalman.stateX` ...). */
  function PositionParamName(axis: nat): string
    requires axis < 3
  {
    PositionPrefix + [PositionAxes[axis]]
  }

  /** The position parameter of coordinate `axis` of anchor `d`
      (`anchorpos.anchor0x` ...). */
  function AnchorParameterName(d: nat, axis: char): string
    requires d < 10
  {
    AnchorPrefix + [DigitChar(d), axis]
  }

  /** Each parser recovers what its name was built from. */
  lemma ParseRoundTrips(d: nat, axis: nat, c: char)
    requires d < 10 && axis < 3
    ensures ParseRangeParamName(RangeParamName(d)) == Ok(Matched(d))
    ensures ParsePositionParamName(PositionParamName(axis)) == Ok(Matched(axis))
    ensures ParseAnchorParameterName(AnchorParameterName(d, c)) == Ok(Matched(AnchorParam(d, c)))
  {
    assert RangeParamName(d)[..|RangePrefix|] == RangePrefix;
    assert PositionParamName(axis)[..|PositionPrefix|] == PositionPrefix;
    assert AnchorParameterName(d, c)[..|AnchorPrefix|] == AnchorPrefix;
  }

  /** Only the last character of a range name is read, so a two-digit
      anchor number is taken modulo ten. */
  lemma RangeNameReadsLastDigitOnly()
    ensures ParseRangeParamName("ranging.distance12") == Ok(Matched(2))
    ensures ParseRangeParamName("ranging.distance") == Raise(ValueError)
  {
    assert "ranging.distance12"[..|RangePrefix|] == RangePrefix;
    assert "ranging.distance"[..|RangePrefix|] == RangePrefix;
  }

  /** `PlotWrapper._find_missing_axis`: removes both axes from `{x, y, z}`
      (a `set.remove` of a missing element raises KeyError) and returns the
      one left. */
  function FindMissingAxis(axis1: char, axis2: char): (r: Result<char>)
    ensures r.Ok? <==> axis1 in Axes && axis2 in Axes && axis1 != axis2
    ensures r.Raise? ==> r.exc == KeyError
    ensures r.Ok? ==> {axis1, axis2, r.value} == Axes && r.value != axis1 && r.value != axis2
  {
    if axis1 !in Axes then Raise(KeyError)
    else
      var rest := Axes - {axis1};
      if axis2 !in rest then Raise(KeyError)
      else
        var left := rest - {axis2};
        Ok(if 'x' in left then 'x' else if 'y' in left then 'y' else 'z')
  }

  // ---------------------------------------------------------------------
  // Anchors
  // ---------------------------------------------------------------------

  /** The value of an Anchor object. */
  datatype AnchorValue = AnchorValue(x: real, y: real, z: real, distance: real)

  /** `Anchor()` with its default arguments. */
  const DefaultAnchor: AnchorValue := AnchorValue(0.0, 0.0, 0.0, 0.0)

  /** `getattr(anchor, axis)` for one of the three coordinate names. */
  function Coordinate(a: AnchorValue, axis: char): real
    requires axis in Axes
  {
    match axis
    case 'x' => a.x
    case 'y' => a.y
    case _ => a.z
  }

  /** The effect of `Anchor.set_position` on an anchor's value. */
  function WithPosition(a: AnchorValue, axis: char, value: real): (r: Result<AnchorValue>)
    ensures r.Ok? <==> axis in Axes
    ensures r.Raise? ==> r.exc == ValueError
    ensures r.Ok? ==>
      && r.value.distance == a.distance
      && Coordinate(r.value, axis) == value
      && forall c :: c in Axes && c != axis ==> Coordinate(r.value, c) == Coordinate(a, c)
  {
    match axis
    case 'x' => Ok(a.(x := value))
    case 'y' => Ok(a.(y := value))
    case 'z' => Ok(a.(z := value))
    case _ => Raise(ValueError)
  }

  /** One anchor of the positioning system, as the tab records it. */
  class Anchor {
    var x: real
    var y: real
    var z: real
    var distance: real

    function Value(): AnchorValue
      reads this
    {
      AnchorValue(x, y, z, distance)
    }

    constructor ()
      ensures Value() == DefaultAnchor
    {
      x, y, z, distance := 0.0, 0.0, 0.0, 0.0;
    }

    /** `Anchor.set_position`: sets the coordinate named `axis`, or raises
        ValueError for a name other than `x`, `y` and `z`. */
    method SetPosition(axis: char, value: real) returns (r: Result<()>)
      modifies this
      ensures r.Ok? <==> axis in Axes
      ensures r.Raise? ==> r.exc == ValueError && Value() == old(Value())
      ensures r.Ok? ==> Value() == WithPosition(old(Value()), axis, value).value
    {
      if axis == 'x' {
        x := value;
      } else if axis == 'y' {
        y := value;
      } else if axis == 'z' {
        z := value;
      } else {
        return Raise(ValueError);
      }
      return Ok(());
    }
  }

  // ---------------------------------------------------------------------
  // The anchor dictionary and the position, as values
  // ---------------------------------------------------------------------

  type Anchors = map<nat, AnchorValue>

  /** The anchors after `_get_anchor(k)`: anchor `k` exists, a new one is
      at its defaults, the others are kept, and once `k` exists another
      call changes nothing. */
  function WithAnchor(m: Anchors, k: nat): (r: Anchors)
    ensures k in r && r.Keys == m.Keys + {k}
    ensures forall j :: j in m ==> r[j] == m[j]
    ensures k !in m ==> r[k] == DefaultAnchor
    ensures k in m ==> r == m
  {
    if k in m then m else m[k := DefaultAnchor]
  }

  /** One entry of `_anchor_range_received`: a valid range name sets the
      distance of its anchor, creating the anchor first if need be. */
  function RangeEntry(m: Anchors, name: string, value: real): (r: Result<Anchors>)
    ensures r.Raise? <==> ParseRangeParamName(name).Raise?
    ensures r.Raise? ==> r.exc == ValueError
    ensures r.Ok? ==>
      && m.Keys <= r.value.Keys
      && forall j :: j in m && ParseRangeParamName(name) != Ok(Matched(j)) ==> r.value[j] == m[j]
    ensures r.Ok? && ParseRangeParamName(name).value.Matched? ==>
      var k := ParseRangeParamName(name).value.value;
      && r.value.Keys == m.Keys + {k}
      && r.value[k].distance == value
      && (k in m ==> r.value[k] == m[k].(distance := value))
      && (k !in m ==> r.value[k] == DefaultAnchor.(distance := value))
  {
    match ParseRangeParamName(name)
    case Raise(e) => Raise(e)
    case Ok(NotMatched) => Ok(m)
    case Ok(Matched(k)) =>
      var m' := WithAnchor(m, k);
      Ok(m'[k := m'[k].(distance := value)])
  }

  /** `_anchor_range_received`: the log entries applied in order. */
  function RangeUpdates(m: Anchors, data: seq<(string, real)>): (r: Run<Anchors>)
    ensures m.Keys <= r.state.Keys
    ensures r.Aborted? ==> r.exc == ValueError
    decreases |data|
  {
    if data == [] then Completed(m)
    else match RangeEntry(m, data[0].0, data[0].1)
      case Raise(e) => Aborted(m, e)
      case Ok(m') => RangeUpdates(m', data[1..])
  }

  /** One entry of `_position_received`. */
  function PositionEntry(p: seq<real>, name: string, value: real): (r: Result<seq<real>>)
    requires |p| == 3
    ensures r.Raise? <==> ParsePositionParamName(name).Raise?
    ensures r.Raise? ==> r.exc == KeyError
    ensures r.Ok? ==>
      && |r.value| == 3
      && forall i :: 0 <= i < 3 && ParsePositionParamName(name) != Ok(Matched(i)) ==> r.value[i] == p[i]
    ensures r.Ok? && ParsePositionParamName(name).value.Matched? ==>
      r.value[ParsePositionParamName(name).value.value] == value
  {
    match ParsePositionParamName(name)
    case Raise(e) => Raise(e)
    case Ok(NotMatched) => Ok(p)
    case Ok(Matched(axis)) => Ok(p[axis := value])
  }

  /** `_position_received`: the log entries applied in order; the position
      keeps its three coordinates. */
  function PositionUpdates(p: seq<real>, data: seq<(string, real)>): (r: Run<seq<real>>)
    requires |p| == 3
    ensures |r.state| == 3
    ensures r.Aborted? ==> r.exc == KeyError
    decreases |data|
  {
    if data == [] then Completed(p)
    else match PositionEntry(p, data[0].0, data[0].1)
      case Raise(e) => Aborted(p, e)
      case Ok(p') => PositionUpdates(p', data[1..])
  }

  /** `set_anchor_position`. `_get_anchor` runs before `set_position`
      checks the axis, so a name with an unknown axis still creates its
      anchor before ValueError is raised. */
  function AnchorPositionUpdate(m: Anchors, name: string, value: real): (r: Run<Anchors>)
    ensures ParseAnchorParameterName(name).Raise? ==>
      r == Aborted(m, ParseAnchorParameterName(name).exc)
    ensures ParseAnchorParameterName(name).Ok? && r.Aborted? ==> r.exc == ValueError
  {
    match ParseAnchorParameterName(name)
    case Raise(e) => Aborted(m, e)
    case Ok(NotMatched) => Completed(m)
    case Ok(Matched(AnchorParam(k, axis))) =>
      var m' := WithAnchor(m, k);
      match WithPosition(m'[k], axis, value)
      case Raise(e) => Aborted(m', e)
      case Ok(a) => Completed(m'[k := a])
  }

  // ---------------------------------------------------------------------
  // Properties of the updates
  // ---------------------------------------------------------------------

  /** Range updates never touch a coordinate: anchors that existed keep
      their position, and anchors they create sit at the origin. */
  lemma {:induction false} RangeUpdatesKeepPositions(m: Anchors, data: seq<(string, real)>)
    ensures var r := RangeUpdates(m, data).state;
      && m.Keys <= r.Keys
      && (forall k :: k in m ==> r[k].x == m[k].x && r[k].y == m[k].y && r[k].z == m[k].z)
      && (forall k :: k in r && k !in m ==> r[k].x == 0.0 && r[k].y == 0.0 && r[k].z == 0.0)
    decreases |data|
  {
    if data != [] {
      match RangeEntry(m, data[0].0, data[0].1)
      case Raise(_) =>
      case Ok(m') =>
        RangeUpdatesKeepPositions(m', data[1..]);
    }
  }

  /** An anchor that no entry names is left as it was, and no anchor is
      created for it. */
  lemma {:induction false} RangeUpdatesUntouched(m: Anchors, data: seq<(string, real)>, k: nat)
    requires forall j :: 0 <= j < |data| ==> ParseRangeParamName(data[j].0) != Ok(Matched(k))
    ensures var r := RangeUpdates(m, data).state;
      (k in r <==> k in m) && (k in m ==> r[k] == m[k])
    decreases |data|
  {
    if data != [] {
      match RangeEntry(m, data[0].0, data[0].1)
      case Raise(_) =>
      case Ok(m') =>
        assert forall j :: 0 <= j < |data[1..]| ==> data[1..][j] == data[j + 1];
        RangeUpdatesUntouched(m', data[1..], k);
    }
  }

  /** The last entry naming an anchor decides its distance, provided no
      entry raises. */
  lemma {:induction false} RangeUpdatesLastWins(m: Anchors, data: seq<(string, real)>, i: nat, k: nat)
    requires RangeUpdates(m, data).Completed?
    requires i < |data| && ParseRangeParamName(data[i].0) == Ok(Matched(k))
    requires forall j :: i < j < |data| ==> ParseRangeParamName(data[j].0) != Ok(Matched(k))
    ensures var r := RangeUpdates(m, data).state;
      k in r && r[k].distance == data[i].1
    decreases |data|
  {
    assert forall j :: 0 <= j < |data[1..]| ==> data[1..][j] == data[j + 1];
    match RangeEntry(m, data[0].0, data[0].1)
    case Ok(m') =>
      if i == 0 {
        RangeUpdatesUntouched(m', data[1..], k);
      } else {
        RangeUpdatesLastWins(m', data[1..], i - 1, k);
      }
  }

  /** The range updates stop exactly when some entry raises. */
  lemma {:induction false} RangeUpdatesAbort(m: Anchors, data: seq<(string, real)>)
    ensures RangeUpdates(m, data).Aborted? <==>
      exists j :: 0 <= j < |data| && ParseRangeParamName(data[j].0).Raise?
    decreases |data|
  {
    if data != [] {
      assert forall j :: 0 <= j < |data[1..]| ==> data[1..][j] == data[j + 1];
      match RangeEntry(m, data[0].0, data[0].1)
      case Raise(_) =>
      case Ok(m') =>
        RangeUpdatesAbort(m', data[1..]);
        if exists j :: 0 <= j < |data| && ParseRangeParamName(data[j].0).Raise? {
          var j :| 0 <= j < |data| && ParseRangeParamName(data[j].0).Raise?;
          assert 0 < j && ParseRangeParamName(data[1..][j - 1].0).Raise?;
        }
    }
  }

  /** The position updates stop exactly when some entry raises. */
  lemma {:induction false} PositionUpdatesAbort(p: seq<real>, data: seq<(string, real)>)
    requires |p| == 3
    ensures PositionUpdates(p, data).Aborted? <==>
      exists j :: 0 <= j < |data| && ParsePositionParamName(data[j].0).Raise?
    decreases |data|
  {
    if data != [] {
      assert forall j :: 0 <= j < |data[1..]| ==> data[1..][j] == data[j + 1];
      match PositionEntry(p, data[0].0, data[0].1)
      case Raise(_) =>
      case Ok(p') =>
        PositionUpdatesAbort(p', data[1..]);
        if exists j :: 0 <= j < |data| && ParsePositionParamName(data[j].0).Raise? {
          var j :| 0 <= j < |data| && ParsePositionParamName(data[j].0).Raise?;
          assert 0 < j && ParsePositionParamName(data[1..][j - 1].0).Raise?;
        }
    }
  }

  /** A position coordinate that no entry names keeps its value. */
  lemma {:induction false} PositionUpdatesUntouched(p: seq<real>, data: seq<(string, real)>, axis: nat)
    requires |p| == 3 && axis < 3
    requires forall j :: 0 <= j < |data| ==> ParsePositionParamName(data[j].0) != Ok(Matched(axis))
    ensures PositionUpdates(p, data).state[axis] == p[axis]
    decreases |data|
  {
    if data != [] {
      match PositionEntry(p, data[0].0, data[0].1)
      case Raise(_) =>
      case Ok(p') =>
        assert forall j :: 0 <= j < |data[1..]| ==> data[1..][j] == data[j + 1];
        PositionUpdatesUntouched(p', data[1..], axis);
    }
  }

  /** The last entry naming an axis decides that coordinate, provided no
      entry raises. */
  lemma {:induction false} PositionUpdatesLastWins(p: seq<real>, data: seq<(string, real)>, i: nat, axis: nat)
    requires |p| == 3
    requires PositionUpdates(p, data).Completed?
    requires i < |data| && ParsePositionParamName(data[i].0) == Ok(Matched(axis))
    requires forall j :: i < j < |data| ==> ParsePositionParamName(data[j].0) != Ok(Matched(axis))
    ensures axis < 3 && PositionUpdates(p, data).state[axis] == data[i].1
    decreases |data|
  {
    assert forall j :: 0 <= j < |data[1..]| ==> data[1..][j] == data[j + 1];
    match PositionEntry(p, data[0].0, data[0].1)
    case Ok(p') =>
      if i == 0 {
        PositionUpdatesUntouched(p', data[1..], axis);
      } else {
        PositionUpdatesLastWins(p', data[1..], i - 1, axis);
      }
  }

  /** An anchor position parameter changes at most the one coordinate it
      names, of the one anchor it names; everything else is kept. */
  lemma AnchorPositionUpdateFrame(m: Anchors, name: string, value: real)
    ensures var r := AnchorPositionUpdate(m, name, value);
      && m.Keys <= r.state.Keys
      && (forall j :: j in m ==> r.state[j].distance == m[j].distance)
      && (ParseAnchorParameterName(name).Ok? && ParseAnchorParameterName(name).value.Matched? ==>
            var p := ParseAnchorParameterName(name).value.value;
            && r.state.Keys == m.Keys + {p.anchor}
            && (forall j :: j in m && j != p.anchor ==> r.state[j] == m[j])
            && (r.Completed? <==> p.axis in Axes)
            && (r.Completed? ==> Coordinate(r.state[p.anchor], p.axis) == value)
            && (r.Completed? ==> forall c :: c in Axes && c != p.axis ==>
                  Coordinate(r.state[p.anchor], c) == Coordinate(WithAnchor(m, p.anchor)[p.anchor], c))
            && (r.Aborted? ==> r.state == WithAnchor(m, p.anchor)))
      && (!(ParseAnchorParameterName(name).Ok? && ParseAnchorParameterName(name).value.Matched?) ==>
            r.state == m)
  {
  }

  // ---------------------------------------------------------------------
  // The tab's state
  // ---------------------------------------------------------------------

  /** The part of `LocoPositioningTab` that tracks the positioning system:
      `_anchors` and `_position`. */
  class LocoPositioningTab {
    var anchors: map<nat, Anchor>
    var position: array<real>

    /** The values of the Anchor objects in `anchors`, key by key. */
    ghost var values: Anchors

    /** The Anchor objects the tab holds. */
    ghost var repr: set<Anchor>

    /** The position has three coordinates, `values` holds the value of
        each Anchor object, and no Anchor object is shared between two
        anchor numbers. */
    ghost predicate Valid()
      reads this, repr
    {
      && position.Length == 3
      && anchors.Keys == values.Keys
      && (forall k :: k in anchors ==> anchors[k] in repr && anchors[k].Value() == values[k])
      && (forall i, j :: i in anchors && j in anchors && i != j ==> anchors[i] != anchors[j])
    }

    /** `__init__` ends by clearing the state. */
    constructor ()
      ensures Valid() && fresh(position)
      ensures anchors == map[] && values == map[] && repr == {} && position[..] == [0.0, 0.0, 0.0]
    {
      anchors := map[];
      values := map[];
      repr := {};
      position := new real[] [0.0, 0.0, 0.0];
    }

    /** `_clear_state`: no anchors and a new position at the origin. */
    method ClearState()
      modifies this
      ensures Valid() && fresh(position)
      ensures anchors == map[] && values == map[] && repr == {} && position[..] == [0.0, 0.0, 0.0]
    {
      anchors := map[];
      values := map[];
      repr := {};
      position := new real[] [0.0, 0.0, 0.0];
    }

    /** `_get_anchor`: the anchor numbered `k`, created with default values
        when there is none yet. */
    method GetAnchor(k: nat) returns (a: Anchor)
      requires Valid()
      modifies this
      ensures Valid() && position == old(position) && fresh(repr - old(repr))
      ensures k in anchors && a == anchors[k]
      ensures k in old(anchors) ==> anchors == old(anchors)
      ensures k !in old(anchors) ==> fresh(a) && anchors == old(anchors)[k := a]
      ensures values == WithAnchor(old(values), k)
    {
      if k !in anchors {
        var created := new Anchor();
        anchors := anchors[k := created];
        values := values[k := DefaultAnchor];
        repr := repr + {created};
      }
      a := anchors[k];
    }

    /** `self._get_anchor(k).distance = value`, the body of the loop in
        `_anchor_range_received`. */
    method SetDistance(k: nat, value: real)
      requires Valid()
      modifies this, repr
      ensures Valid() && position == old(position) && fresh(repr - old(repr))
      ensures var m := WithAnchor(old(values), k);
        values == m[k := m[k].(distance := value)]
    {
      var a := GetAnchor(k);
      a.distance := value;
      values := values[k := values[k].(distance := value)];
      forall j | j in anchors
        ensures anchors[j] in repr && anchors[j].Value() == values[j]
      {
        if j != k {
          assert anchors[j] != a;
        }
      }
    }

    /** `_anchor_range_received`. */
    method AnchorRangeReceived(data: seq<(string, real)>) returns (r: Result<()>)
      requires Valid()
      modifies this, repr
      ensures Valid() && position == old(position) && fresh(repr - old(repr))
      ensures var run := RangeUpdates(old(values), data);
        && values == run.state
        && (r.Ok? <==> run.Completed?)
        && (r.Raise? ==> r.exc == run.exc)
    {
      var i := 0;
      while i < |data|
        invariant i <= |data|
        invariant Valid() && position == old(position) && fresh(repr - old(repr))
        invariant RangeUpdates(values, data[i..]) == RangeUpdates(old(values), data)
      {
        var (name, value) := data[i];
        assert data[i..][1..] == data[i + 1..];
        var parsed := ParseRangeParamName(name);
        if parsed.Raise? {
          return Raise(parsed.exc);
        }
        if parsed.value.Matched? {
          SetDistance(parsed.value.value, value);
        }
        i := i + 1;
      }
      return Ok(());
    }

    /** `_position_received`. */
    method PositionReceived(data: seq<(string, real)>) returns (r: Result<()>)
      requires Valid()
      modifies position
      ensures var run := PositionUpdates(old(position[..]), data);
        && position[..] == run.state
        && (r.Ok? <==> run.Completed?)
        && (r.Raise? ==> r.exc == run.exc)
    {
      var i := 0;
      while i < |data|
        invariant i <= |data|
        invariant PositionUpdates(position[..], data[i..]) == PositionUpdates(old(position[..]), data)
      {
        var (name, value) := data[i];
        assert data[i..][1..] == data[i + 1..];
        var parsed := ParsePositionParamName(name);
        if parsed.Raise? {
          return Raise(parsed.exc);
        }
        if parsed.value.Matched? {
          position[parsed.value.value] := value;
        }
        i := i + 1;
      }
      return Ok(());
    }

    /** `set_anchor_position`. */
    method SetAnchorPosition(name: string, value: real) returns (r: Result<()>)
      requires Valid()
      modifies this, repr
      ensures Valid() && position == old(position) && fresh(repr - old(repr))
      ensures var run := AnchorPositionUpdate(old(values), name, value);
        && values == run.state
        && (r.Ok? <==> run.Completed?)
        && (r.Raise? ==> r.exc == run.exc)
    {
      var parsed := ParseAnchorParameterName(name);
      if parsed.Raise? {
        return Raise(parsed.exc);
      }
      if parsed.value.NotMatched? {
        return Ok(());
      }
      r := SetCoordinate(parsed.value.value.anchor, parsed.value.value.axis, value);
    }

    /** `self._get_anchor(k).set_position(axis, value)`, the last step of
        `set_anchor_position`. */
    method SetCoordinate(k: nat, axis: char, value: real) returns (r: Result<()>)
      requires Valid()
      modifies this, repr
      ensures Valid() && position == old(position) && fresh(repr - old(repr))
      ensures var m := WithAnchor(old(values), k);
        && (r.Ok? <==> axis in Axes)
        && (r.Raise? ==> r.exc == ValueError && values == m)
        && (r.Ok? ==> values == m[k := WithPosition(m[k], axis, value).value])
    {
      var a := GetAnchor(k);
      r := a.SetPosition(axis, value);
      values := values[k := a.Value()];
      forall j | j in anchors
        ensures anchors[j] in repr && anchors[j].Value() == values[j]
      {
        if j != k {
          assert anchors[j] != a;
        }
      }
    }
  }
}
