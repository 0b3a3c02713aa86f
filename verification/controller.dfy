/**
 * The controller side (`Ns3Env`, the gymnasium environment): building
 * spaces and observations from the simulator's messages, packing actions
 * into messages, and the flags that keep its receives and sends paired
 * with the simulator's.
 *
 * Four defects of the controller are kept as the `AsWritten` version of the
 * functions they affect, next to the `Corrected` version; the environment
 * runs whichever version it is constructed with.
 */
module Controller {
  import opened Wrappers
  import opened Scalars
  import opened Text
  import opened Messages
  import opened Container

  /** The exceptions the controller raises. */
  datatype PyError = AssertionError | AttributeError | KeyError | TypeError | ValueError

  /** The code as it stands, or with the four defects repaired. */
  datatype Version = AsWritten | Corrected

  /** A gymnasium space; a box carries the name of its numpy element type. */
  datatype GymSpace =
    | GymDiscrete(n: uint32)
    | GymBox(shape: seq<uint32>, dtype: string)
    | GymTuple(elements: seq<GymSpace>)
    | GymDict(members: map<string, GymSpace>)

  /**
   * A Python value as the controller sees it: an integer, a numpy array
   * (its shape and its elements in row-major order), a tuple, or a dict
   * (its entries in insertion order).
   */
  datatype PyValue =
    | PyInt(i: int)
    | PyArray(shape: seq<nat>, elems: seq<Elem>)
    | PyTuple(items: seq<PyValue>)
    | PyDict(entries: seq<(string, PyValue)>)

  // ---------------------------------------------------------------------
  // Spaces (_create_space)
  // ---------------------------------------------------------------------

  /** The numpy element type a box space gets; as written FLOAT and DOUBLE are swapped. */
  function SpaceTypeName(d: Dtype, ver: Version): (t: Option<string>)
    ensures t.None? <==> !KnownDtype(d)
  {
    match d
    case INT => Some("int32")
    case UINT => Some("uint32")
    case FLOAT => if ver == AsWritten then Some("float64") else Some("float32")
    case DOUBLE => if ver == AsWritten then Some("float32") else Some("float64")
    case UnrecognisedDtype(_) => None
  }

  /** Assigning keys in order, as a dict comprehension does: a repeated key takes the last value. */
  function Assign<V>(m: map<string, V>, keys: seq<string>, vs: seq<V>): (r: map<string, V>)
    requires |keys| == |vs|
    ensures r.Keys == m.Keys + set k | k in keys
    decreases |keys|
  {
    if keys == [] then m
    else
      var r := Assign(m[keys[0] := vs[0]], keys[1..], vs[1..]);
      assert forall k :: k in keys <==> k == keys[0] || k in keys[1..];
      r
  }

  /** The space for a description, or the first exception met depth first. */
  function CreateSpace(d: SpaceDescription, ver: Version): Result<GymSpace, PyError>
    decreases d
  {
    match d.space
    case NoSpace => Err(TypeError)
    case DiscreteSpace(n) => if n == 0 then Err(AssertionError) else Ok(GymDiscrete(n))
    case BoxSpace(shape, dtype) =>
      (match SpaceTypeName(dtype, ver)
       case None => Err(ValueError)
       case Some(t) => Ok(GymBox(shape, t)))
    case TupleSpace(es) =>
      var rs := seq(|es|, i requires 0 <= i < |es| => CreateSpace(es[i], ver));
      (match FirstError(rs)
       case Some(e) => Err(e)
       case None => Ok(GymTuple(Values(rs))))
    case DictSpace(es) =>
      var rs := seq(|es|, i requires 0 <= i < |es| => CreateSpace(es[i], ver));
      (match FirstError(rs)
       case Some(e) => Err(e)
       case None => Ok(GymDict(Assign(map[], seq(|es|, i requires 0 <= i < |es| => es[i].name), Values(rs)))))
  }

  // ---------------------------------------------------------------------
  // Observations (_create_data)
  // ---------------------------------------------------------------------

  /** `np.array` of a repeated field: one dimension, the field's elements in order. */
  function ArrayOf(vs: BoxValues): (a: PyValue)
    ensures a.PyArray? && a.shape == [Count(vs)] && |a.elems| == Count(vs)
    ensures forall i :: 0 <= i < Count(vs) ==> a.elems[i] == At(vs, i)
  {
    PyArray([Count(vs)], seq(Count(vs), i requires 0 <= i < Count(vs) => At(vs, i)))
  }

  /** The array for a box message: the field the dtype names; the shape is not applied. */
  function BoxArray(b: BoxDataContainer): Result<PyValue, PyError>
  {
    match b.dtype
    case INT => Ok(ArrayOf(Ints(b.intData)))
    case UINT => Ok(ArrayOf(UInts(b.uintData)))
    case DOUBLE => Ok(ArrayOf(Doubles(b.doubleData)))
    case FLOAT => Ok(ArrayOf(Floats(b.floatData)))
    case UnrecognisedDtype(_) => Err(ValueError)
  }

  /** `d[k] = v` on an insertion-ordered dict: an existing key keeps its place and takes the new value. */
  function DictSet(ps: seq<(string, PyValue)>, k: string, v: PyValue): seq<(string, PyValue)>
  {
    if ps == [] then [(k, v)]
    else if ps[0].0 == k then [(k, v)] + ps[1..]
    else [ps[0]] + DictSet(ps[1..], k, v)
  }

  /** A dict comprehension over (key, value) pairs. */
  function DictFrom(ps: seq<(string, PyValue)>, keys: seq<string>, vs: seq<PyValue>): seq<(string, PyValue)>
    requires |keys| == |vs|
    decreases |keys|
  {
    if keys == [] then ps else DictFrom(DictSet(ps, keys[0], vs[0]), keys[1..], vs[1..])
  }

  /**
   * The observation for a data message. As written the tuple and dict arms
   * compare the case name with `pb.Tuple` and `pb.Dict`, which are not the
   * strings `WhichOneof` returns, so they never match: tuple and dict data
   * raise `TypeError` like a message with no case set.
   */
  function CreateData(m: DataContainer, ver: Version): Result<PyValue, PyError>
    decreases m
  {
    match m.data
    case NoData => Err(TypeError)
    case DiscreteData(v) => Ok(PyInt(v as int))
    case BoxData(b) => BoxArray(b)
    case TupleData(es) =>
      if ver == AsWritten then Err(TypeError)
      else
        var rs := seq(|es|, i requires 0 <= i < |es| => CreateData(es[i], ver));
        (match FirstError(rs)
         case Some(e) => Err(e)
         case None => Ok(PyTuple(Values(rs))))
    case DictData(es) =>
      if ver == AsWritten then Err(TypeError)
      else
        var rs := seq(|es|, i requires 0 <= i < |es| => CreateData(es[i], ver));
        (match FirstError(rs)
         case Some(e) => Err(e)
         case None => Ok(PyDict(DictFrom([], Names(es), Values(rs)))))
  }

  /** What the controller should see for a container the simulator encodes: no shapes, dict keys ascending. */
  function PyView(c: Container): PyValue
    decreases c
  {
    match c
    case Discrete(_, v) => PyInt(v as int)
    case Box(_, vs) => ArrayOf(vs)
    case Tuple(items) => PyTuple(seq(|items|, i requires 0 <= i < |items| => PyView(items[i])))
    case Dict(entries) =>
      var ks := SortedKeys(entries.Keys);
      PyDict(seq(|ks|, i requires 0 <= i < |ks| => (ks[i], PyView(entries[ks[i]]))))
  }

  predicate DistinctKeys(ps: seq<(string, PyValue)>)
  {
    forall i, j :: 0 <= i < j < |ps| ==> ps[i].0 != ps[j].0
  }

  /** Setting a key that is not there appends it. */
  lemma {:induction false} DictSetNew(ps: seq<(string, PyValue)>, k: string, v: PyValue)
    requires forall i :: 0 <= i < |ps| ==> ps[i].0 != k
    ensures DictSet(ps, k, v) == ps + [(k, v)]
  {
    if ps != [] {
      DictSetNew(ps[1..], k, v);
    }
  }

  /** A comprehension over distinct keys keeps every pair, in order. */
  lemma {:induction false} DictFromDistinct(ps: seq<(string, PyValue)>, keys: seq<string>, vs: seq<PyValue>)
    requires |keys| == |vs|
    requires forall i, j :: 0 <= i < j < |keys| ==> keys[i] != keys[j]
    requires forall i, j :: 0 <= i < |ps| && 0 <= j < |keys| ==> ps[i].0 != keys[j]
    ensures DictFrom(ps, keys, vs) == ps + seq(|keys|, i requires 0 <= i < |keys| => (keys[i], vs[i]))
    decreases |keys|
  {
    if keys != [] {
      DictSetNew(ps, keys[0], vs[0]);
      var ps' := ps + [(keys[0], vs[0])];
      DictFromDistinct(ps', keys[1..], vs[1..]);
      var rest := seq(|keys| - 1, i requires 0 <= i < |keys| - 1 => (keys[1..][i], vs[1..][i]));
      var all := seq(|keys|, i requires 0 <= i < |keys| => (keys[i], vs[i]));
      assert all == [(keys[0], vs[0])] + rest;
    }
  }

  /**
   * The corrected decoder gives every encoded container back as its Python
   * view: the observation arrives whole, every shape flattened to one
   * dimension.
   */
  lemma {:induction false} ObservationRoundTrip(c: Container)
    ensures CreateData(Encode(c), Corrected) == Ok(PyView(c))
    decreases c
  {
    match c
    case Discrete(_, _) =>
    case Box(_, vs) =>
      match vs {
        case Ints(_) =>
        case UInts(_) =>
        case Floats(_) =>
        case Doubles(_) =>
      }
    case Tuple(items) =>
      var es := Encode(c).data.elements;
      var rs := seq(|es|, i requires 0 <= i < |es| => CreateData(es[i], Corrected));
      forall i | 0 <= i < |items| ensures rs[i] == Ok(PyView(items[i])) {
        ObservationRoundTrip(items[i]);
      }
      assert FirstError(rs) == None;
      assert Values(rs) == PyView(c).items;
    case Dict(entries) =>
      ObservationRoundTripDict(entries);
  }

  lemma {:induction false} ObservationRoundTripDict(entries: map<string, Container>)
    ensures CreateData(Encode(Dict(entries)), Corrected) == Ok(PyView(Dict(entries)))
    decreases Dict(entries), 1
  {
    var ks := SortedKeys(entries.Keys);
    var vals := seq(|ks|, i requires 0 <= i < |ks| => PyView(entries[ks[i]]));
    DictEntriesDecode(entries);
    forall i, j | 0 <= i < j < |ks| ensures ks[i] != ks[j] {
      AscendingDistinct(ks, j, i);
    }
    DictFromFresh(ks, vals);
    assert PyView(Dict(entries)).entries == seq(|ks|, i requires 0 <= i < |ks| => (ks[i], vals[i]));
  }

  /** The elements of an encoded dict decode one by one, under their keys in ascending order. */
  lemma {:induction false} DictEntriesDecode(entries: map<string, Container>)
    ensures var ks := SortedKeys(entries.Keys);
      CreateData(Encode(Dict(entries)), Corrected)
      == Ok(PyDict(DictFrom([], ks, seq(|ks|, i requires 0 <= i < |ks| => PyView(entries[ks[i]])))))
    decreases Dict(entries), 0
  {
    var ks := SortedKeys(entries.Keys);
    var es := seq(|ks|, i requires 0 <= i < |ks| => Named(Encode(entries[ks[i]]), ks[i]));
    var vals := seq(|ks|, i requires 0 <= i < |ks| => PyView(entries[ks[i]]));
    assert Encode(Dict(entries)) == DataContainer("", DictData(es));
    forall i | 0 <= i < |ks| ensures CreateData(es[i], Corrected) == Ok(vals[i]) {
      ObservationRoundTrip(entries[ks[i]]);
    }
    CreateDataDict(es, vals);
    assert Names(es) == ks;
  }

  /** A comprehension over distinct keys, from an empty dict, is the pairs in order. */
  lemma DictFromFresh(keys: seq<string>, vs: seq<PyValue>)
    requires |keys| == |vs|
    requires forall i, j :: 0 <= i < j < |keys| ==> keys[i] != keys[j]
    ensures DictFrom([], keys, vs) == seq(|keys|, i requires 0 <= i < |keys| => (keys[i], vs[i]))
  {
    DictFromDistinct([], keys, vs);
    var pairs := seq(|keys|, i requires 0 <= i < |keys| => (keys[i], vs[i]));
    assert [] + pairs == pairs;
  }

  /** A dict message whose elements all decode: the pairs set in message order. */
  lemma CreateDataDict(es: seq<DataContainer>, vals: seq<PyValue>)
    requires |vals| == |es| && forall i :: 0 <= i < |es| ==> CreateData(es[i], Corrected) == Ok(vals[i])
    ensures CreateData(DataContainer("", DictData(es)), Corrected) == Ok(PyDict(DictFrom([], Names(es), vals)))
  {
    var rs := seq(|es|, i requires 0 <= i < |es| => CreateData(es[i], Corrected));
    assert FirstError(rs) == None;
    assert Values(rs) == vals;
  }

  // ---------------------------------------------------------------------
  // Actions (_pack_data)
  // ---------------------------------------------------------------------

  const INT_NAMES: seq<string> := ["int", "int8", "int16", "int32", "int64"]
  const UINT_NAMES: seq<string> := ["uint", "uint8", "uint16", "uint32", "uint64"]

  /**
   * The dtype code for a box space's element type. As written every float
   * type, `float64` included, is packed as FLOAT; the DOUBLE branch only
   * matches the name `double`, which is never a canonical numpy name.
   */
  function PackCode(t: string, ver: Version): (r: Option<Dtype>)
    ensures r.Some? ==> KnownDtype(r.value)
    ensures t in INT_NAMES ==> r == Some(INT)
    ensures t in UINT_NAMES ==> r == Some(UINT)
  {
    if t in INT_NAMES then Some(INT)
    else if t in UINT_NAMES then Some(UINT)
    else if ver == AsWritten then
      (if t in ["float", "float32", "float64"] then Some(FLOAT)
       else if t in ["double"] then Some(DOUBLE)
       else None)
    else
      (if t in ["float32"] then Some(FLOAT)
       else if t in ["float", "float64", "double"] then Some(DOUBLE)
       else None)
  }

  /**
   * How protobuf stores an element in a field of another numeric type:
   * a conversion, or the exception it raises. Not modelled further.
   */
  datatype Casts = Casts(
    toInt32: Elem -> Result<int32, PyError>,
    toUInt32: Elem -> Result<uint32, PyError>,
    toFloat32: Elem -> Result<Float32, PyError>,
    toFloat64: Elem -> Result<Float64, PyError>)

  /** One element stored in the field of type `code`; an element of that type is stored as it is. */
  function StoreElem(e: Elem, code: Dtype, casts: Casts): (r: Result<Elem, PyError>)
    requires KnownDtype(code)
    ensures r.Ok? ==> ElemDtype(r.value) == code
    ensures ElemDtype(e) == code ==> r == Ok(e)
  {
    if ElemDtype(e) == code then Ok(e)
    else
      match code
      case INT => (match casts.toInt32(e) case Ok(x) => Ok(I32(x)) case Err(err) => Err(err))
      case UINT => (match casts.toUInt32(e) case Ok(x) => Ok(U32(x)) case Err(err) => Err(err))
      case FLOAT => (match casts.toFloat32(e) case Ok(x) => Ok(F32(x)) case Err(err) => Err(err))
      case DOUBLE => (match casts.toFloat64(e) case Ok(x) => Ok(F64(x)) case Err(err) => Err(err))
  }

  /** All elements stored in order; the first failing element's exception. */
  function StoreAll(es: seq<Elem>, code: Dtype, casts: Casts): (r: Result<BoxValues, PyError>)
    requires KnownDtype(code)
    ensures r.Ok? ==> DtypeOf(r.value) == code && Count(r.value) == |es|
    ensures (forall i :: 0 <= i < |es| ==> ElemDtype(es[i]) == code) ==>
      r.Ok? && forall i :: 0 <= i < |es| ==> At(r.value, i) == es[i]
    decreases |es|
  {
    if es == [] then Ok(NoValues(code))
    else
      var init := es[..|es| - 1];
      match StoreAll(init, code, casts)
      case Err(err) => Err(err)
      case Ok(vs) =>
        (match StoreElem(es[|es| - 1], code, casts)
         case Err(err) => Err(err)
         case Ok(e) => Ok(Append(vs, e)))
  }

  /** The array's shape in the `uint32` field; a dimension too large for it raises `ValueError`. */
  function ShapeField(shape: seq<nat>): (r: Result<seq<uint32>, PyError>)
    ensures r.Ok? <==> forall i :: 0 <= i < |shape| ==> shape[i] < 0x1_0000_0000
    ensures r.Ok? ==> |r.value| == |shape| && forall i :: 0 <= i < |shape| ==> r.value[i] as int == shape[i]
  {
    if forall i :: 0 <= i < |shape| ==> shape[i] < 0x1_0000_0000 then
      Ok(seq(|shape|, i requires 0 <= i < |shape| && shape[i] < 0x1_0000_0000 => shape[i] as uint32))
    else Err(ValueError)
  }

  /**
   * A box message for an array: its shape, the dtype code, and its elements
   * in the field the code selects. The array itself is handed to the
   * repeated field, which iterates it along its first axis: a 0-d array
   * cannot be iterated and the rows of a deeper one are arrays, not numbers,
   * so only a one-dimensional array gets past `TypeError`.
   */
  function PackArray(shape: seq<nat>, elems: seq<Elem>, code: Dtype, casts: Casts): (r: Result<DataContainer, PyError>)
    requires KnownDtype(code)
    ensures (forall i :: 0 <= i < |shape| ==> shape[i] < 0x1_0000_0000) && |shape| != 1 ==> r == Err(TypeError)
    ensures r.Ok? ==>
      && |shape| == 1 && r.value.data.BoxData? && r.value.data.box.dtype == code
      && |r.value.data.box.shape| == 1 && r.value.data.box.shape[0] as int == shape[0]
  {
    match ShapeField(shape)
    case Err(err) => Err(err)
    case Ok(s) =>
      if |shape| != 1 then Err(TypeError)
      else
        (match StoreAll(elems, code, casts)
         case Err(err) => Err(err)
         case Ok(vs) => Ok(DataContainer("", BoxData(BoxMessage(s, vs)))))
  }

  /**
   * The message for an action in the space `sp`, inside the action space
   * `root`. As written the tuple and dict arms pair the children with the
   * subspaces of `root` instead of those of `sp`.
   */
  function PackData(a: PyValue, sp: GymSpace, root: GymSpace, casts: Casts, ver: Version): Result<DataContainer, PyError>
    decreases a
  {
    match sp
    case GymDiscrete(_) =>
      if !a.PyInt? then Err(AssertionError)
      else if !(0 <= a.i < 0x1_0000_0000) then Err(ValueError)
      else Ok(DataContainer("", DiscreteData(a.i as uint32)))
    case GymBox(_, t) =>
      if !a.PyArray? then Err(AssertionError)
      else
        (match PackCode(t, ver)
         case None => Err(ValueError)
         case Some(code) => PackArray(a.shape, a.elems, code, casts))
    case GymTuple(subs) =>
      if !a.PyTuple? then Err(AssertionError)
      else if ver == AsWritten && !root.GymTuple? then Err(AssertionError)
      else
        var spaces := if ver == AsWritten then root.elements else subs;
        var n := if |a.items| <= |spaces| then |a.items| else |spaces|;
        var rs := seq(n, i requires 0 <= i < n => PackData(a.items[i], spaces[i], root, casts, ver));
        (match FirstError(rs)
         case Some(e) => Err(e)
         case None => Ok(DataContainer("", TupleData(Values(rs)))))
    case GymDict(subs) =>
      if !a.PyDict? then Err(AssertionError)
      else if ver == AsWritten && !root.GymDict? then Err(AssertionError)
      else
        var spaces := if ver == AsWritten then root.members else subs;
        var es := a.entries;
        var rs := seq(|es|, i requires 0 <= i < |es| =>
          if es[i].0 !in spaces then Err(KeyError)
          else
            match PackData(es[i].1, spaces[es[i].0], root, casts, ver)
            case Err(err) => Err(err)
            case Ok(m) => Ok(Named(m, es[i].0)));
        (match FirstError(rs)
         case Some(e) => Err(e)
         case None => Ok(DataContainer("", DictData(Values(rs)))))
  }

  /**
   * An action that matches its space: an integer in range for a discrete
   * space, an array of the space's element type for a box, one child per
   * subspace for a tuple, keys of the space for a dict.
   */
  predicate Fits(a: PyValue, sp: GymSpace)
    decreases a
  {
    match sp
    case GymDiscrete(_) => a.PyInt? && 0 <= a.i < 0x1_0000_0000
    case GymBox(_, t) =>
      && a.PyArray?
      && PackCode(t, Corrected).Some?
      && |a.shape| == 1 && a.shape[0] == |a.elems| && a.shape[0] < 0x1_0000_0000
      && (forall i :: 0 <= i < |a.elems| ==> ElemDtype(a.elems[i]) == PackCode(t, Corrected).value)
    case GymTuple(subs) =>
      && a.PyTuple?
      && |a.items| == |subs|
      && (forall i :: 0 <= i < |subs| ==> Fits(a.items[i], subs[i]))
    case GymDict(subs) =>
      && a.PyDict?
      && forall i :: 0 <= i < |a.entries| ==> a.entries[i].0 in subs && Fits(a.entries[i].1, subs[a.entries[i].0])
  }

  /** The action as the controller reads it back: every array flattened to one dimension. */
  function Flatten(a: PyValue): PyValue
    decreases a
  {
    match a
    case PyInt(_) => a
    case PyArray(_, elems) => PyArray([|elems|], elems)
    case PyTuple(items) => PyTuple(seq(|items|, i requires 0 <= i < |items| => Flatten(items[i])))
    case PyDict(es) => PyDict(seq(|es|, i requires 0 <= i < |es| => (es[i].0, Flatten(es[i].1))))
  }

  /** Arrays of every nesting level with distinct dict keys: what a Python dict guarantees. */
  predicate WellFormed(a: PyValue)
    decreases a
  {
    match a
    case PyInt(_) => true
    case PyArray(_, _) => true
    case PyTuple(items) => forall i :: 0 <= i < |items| ==> WellFormed(items[i])
    case PyDict(es) => DistinctKeys(es) && forall i :: 0 <= i < |es| ==> WellFormed(es[i].1)
  }

  /** Arrays are one-dimensional in an action that fits, so flattening leaves it as it is. */
  lemma {:induction false} FitsIsFlat(a: PyValue, sp: GymSpace)
    requires Fits(a, sp)
    ensures Flatten(a) == a
    decreases a
  {
    match sp
    case GymDiscrete(_) =>
    case GymBox(_, _) =>
    case GymTuple(subs) =>
      forall i | 0 <= i < |a.items| ensures Flatten(a.items[i]) == a.items[i] {
        FitsIsFlat(a.items[i], subs[i]);
      }
    case GymDict(subs) =>
      forall i | 0 <= i < |a.entries| ensures Flatten(a.entries[i].1) == a.entries[i].1 {
        FitsIsFlat(a.entries[i].1, subs[a.entries[i].0]);
      }
  }

  /**
   * With the corrected recursion, an action that fits its space is packed
   * without an exception into a message the simulator decodes into a
   * container without an abort, and the corrected decoder reads it back as
   * the same action.
   */
  lemma {:induction false} PackFits(a: PyValue, sp: GymSpace, root: GymSpace, casts: Casts)
    requires Fits(a, sp) && WellFormed(a)
    ensures PackData(a, sp, root, casts, Corrected).Ok?
    ensures Decodable(PackData(a, sp, root, casts, Corrected).value)
    ensures Decode(PackData(a, sp, root, casts, Corrected).value).Ok?
    ensures CreateData(PackData(a, sp, root, casts, Corrected).value, Corrected) == Ok(a)
    decreases a, 3
  {
    PackFitsFlat(a, sp, root, casts);
    FitsIsFlat(a, sp);
    DecodeSucceedsIff(PackData(a, sp, root, casts, Corrected).value);
  }

  /** `PackFits` with the read-back stated as the flattened action, the form the induction carries. */
  lemma {:induction false} PackFitsFlat(a: PyValue, sp: GymSpace, root: GymSpace, casts: Casts)
    requires Fits(a, sp) && WellFormed(a)
    ensures PackData(a, sp, root, casts, Corrected).Ok?
    ensures Decodable(PackData(a, sp, root, casts, Corrected).value)
    ensures CreateData(PackData(a, sp, root, casts, Corrected).value, Corrected) == Ok(Flatten(a))
    decreases a, 2
  {
    match sp
    case GymDiscrete(_) =>
    case GymBox(_, t) =>
      var code := PackCode(t, Corrected).value;
      var vs := StoreAll(a.elems, code, casts).value;
      assert ArrayOf(vs) == PyArray([|a.elems|], a.elems);
      match vs {
        case Ints(_) =>
        case UInts(_) =>
        case Floats(_) =>
        case Doubles(_) =>
      }
    case GymTuple(subs) =>
      PackFitsTuple(a, subs, root, casts);
    case GymDict(subs) =>
      PackFitsDict(a, subs, root, casts);
  }

  lemma {:induction false} PackFitsTuple(a: PyValue, subs: seq<GymSpace>, root: GymSpace, casts: Casts)
    requires Fits(a, GymTuple(subs)) && WellFormed(a)
    ensures PackData(a, GymTuple(subs), root, casts, Corrected).Ok?
    ensures Decodable(PackData(a, GymTuple(subs), root, casts, Corrected).value)
    ensures CreateData(PackData(a, GymTuple(subs), root, casts, Corrected).value, Corrected) == Ok(Flatten(a))
    decreases a, 1
  {
    var n := |a.items|;
    var rs := seq(n, i requires 0 <= i < n => PackData(a.items[i], subs[i], root, casts, Corrected));
    forall i | 0 <= i < n ensures rs[i].Ok? && Decodable(rs[i].value) && CreateData(rs[i].value, Corrected) == Ok(Flatten(a.items[i])) {
      PackFitsFlat(a.items[i], subs[i], root, casts);
    }
    assert FirstError(rs) == None;
    var es := Values(rs);
    var back := seq(|es|, i requires 0 <= i < |es| => CreateData(es[i], Corrected));
    assert FirstError(back) == None;
    assert Values(back) == Flatten(a).items;
  }

  lemma {:induction false} PackFitsDict(a: PyValue, subs: map<string, GymSpace>, root: GymSpace, casts: Casts)
    requires Fits(a, GymDict(subs)) && WellFormed(a)
    ensures PackData(a, GymDict(subs), root, casts, Corrected).Ok?
    ensures Decodable(PackData(a, GymDict(subs), root, casts, Corrected).value)
    ensures CreateData(PackData(a, GymDict(subs), root, casts, Corrected).value, Corrected) == Ok(Flatten(a))
    decreases a, 1
  {
    var es := a.entries;
    PackDictEntries(a, subs, root, casts);
    var ms := PackData(a, GymDict(subs), root, casts, Corrected).value.data.elements;
    var vals := seq(|es|, i requires 0 <= i < |es| => Flatten(es[i].1));
    var keys := Names(ms);
    assert CreateData(DataContainer("", DictData(ms)), Corrected) == Ok(PyDict(DictFrom([], keys, vals))) by {
      CreateDataDict(ms, vals);
    }
    assert DictFrom([], keys, vals) == Flatten(a).entries by {
      forall i, j | 0 <= i < j < |keys| ensures keys[i] != keys[j] {
        assert keys[i] == es[i].0 && keys[j] == es[j].0;
      }
      DictFromFresh(keys, vals);
    }
  }

  /** The corrected packing of a fitting dict action: one element per entry, named by its key, each read back as the flattened value. */
  lemma {:induction false} PackDictEntries(a: PyValue, subs: map<string, GymSpace>, root: GymSpace, casts: Casts)
    requires Fits(a, GymDict(subs)) && WellFormed(a)
    ensures var r := PackData(a, GymDict(subs), root, casts, Corrected);
      && r.Ok? && r.value.name == "" && r.value.data.DictData?
      && |r.value.data.elements| == |a.entries|
      && forall i :: 0 <= i < |a.entries| ==>
        && r.value.data.elements[i].name == a.entries[i].0
        && Decodable(r.value.data.elements[i])
        && CreateData(r.value.data.elements[i], Corrected) == Ok(Flatten(a.entries[i].1))
    decreases a, 0
  {
    var es := a.entries;
    var rs := seq(|es|, i requires 0 <= i < |es| =>
      if es[i].0 !in subs then Err(KeyError)
      else
        match PackData(es[i].1, subs[es[i].0], root, casts, Corrected)
        case Err(err) => Err(err)
        case Ok(m) => Ok(Named(m, es[i].0)));
    forall i | 0 <= i < |es|
      ensures rs[i].Ok? && rs[i].value.name == es[i].0 && Decodable(rs[i].value)
      ensures CreateData(rs[i].value, Corrected) == Ok(Flatten(es[i].1))
    {
      PackFitsFlat(es[i].1, subs[es[i].0], root, casts);
    }
    assert FirstError(rs) == None;
    assert PackData(a, GymDict(subs), root, casts, Corrected) == Ok(DataContainer("", DictData(Values(rs))));
  }

  /** A packed box carries the array's shape and the code chosen from the space's element type. */
  lemma PackedBox(a: PyValue, shape: seq<uint32>, t: string, root: GymSpace, casts: Casts, ver: Version)
    requires PackData(a, GymBox(shape, t), root, casts, ver).Ok?
    ensures a.PyArray? && PackCode(t, ver).Some? && |a.shape| == 1
    ensures var m := PackData(a, GymBox(shape, t), root, casts, ver).value;
      && m.data.BoxData?
      && m.data.box.dtype == PackCode(t, ver).value
      && |m.data.box.shape| == |a.shape|
      && (forall i :: 0 <= i < |a.shape| ==> m.data.box.shape[i] as int == a.shape[i])
  {
  }

  /**
   * The errors of packing a box: an action that is no array fails the
   * assertion, an unknown type name raises `ValueError`, and an array of
   * any rank but one raises `TypeError` once its shape is stored.
   */
  lemma PackBoxErrors(a: PyValue, shape: seq<uint32>, t: string, root: GymSpace, casts: Casts, ver: Version)
    ensures !a.PyArray? ==> PackData(a, GymBox(shape, t), root, casts, ver) == Err(AssertionError)
    ensures a.PyArray? && PackCode(t, ver).None? ==> PackData(a, GymBox(shape, t), root, casts, ver) == Err(ValueError)
    ensures a.PyArray? && PackCode(t, ver).Some? && |a.shape| != 1 && (forall i :: 0 <= i < |a.shape| ==> a.shape[i] < 0x1_0000_0000) ==>
      PackData(a, GymBox(shape, t), root, casts, ver) == Err(TypeError)
  {
  }

  /** A two-by-two `int32` array for a box of that shape raises `TypeError`: its rows are arrays, not numbers. */
  lemma MatrixActionRaises(root: GymSpace, casts: Casts, ver: Version)
    ensures var a := PyArray([2, 2], [I32(1), I32(2), I32(3), I32(4)]);
      && PackData(a, GymBox([2, 2], "int32"), root, casts, ver) == Err(TypeError)
      && !Fits(a, GymBox([2, 2], "int32"))
  {
    assert "int32" in INT_NAMES;
  }

  /** In either version, the elements of a packed dict are named by the action's keys, in the action's order. */
  lemma PackedDictNames(a: PyValue, subs: map<string, GymSpace>, root: GymSpace, casts: Casts, ver: Version)
    requires PackData(a, GymDict(subs), root, casts, ver).Ok?
    ensures a.PyDict?
    ensures var m := PackData(a, GymDict(subs), root, casts, ver).value;
      && m.data.DictData?
      && Names(m.data.elements) == seq(|a.entries|, i requires 0 <= i < |a.entries| => a.entries[i].0)
  {
    var spaces := if ver == AsWritten then root.members else subs;
    var es := a.entries;
    var rs := seq(|es|, i requires 0 <= i < |es| =>
      if es[i].0 !in spaces then Err(KeyError)
      else
        match PackData(es[i].1, spaces[es[i].0], root, casts, ver)
        case Err(err) => Err(err)
        case Ok(m) => Ok(Named(m, es[i].0)));
    assert FirstError(rs) == None;
    forall i | 0 <= i < |es| ensures rs[i].Ok? && rs[i].value.name == es[i].0 {
    }
  }

  /** An unknown dtype raises `ValueError` in both the space and the observation decoder. */
  lemma UnknownDtypeRaises(name: string, shape: seq<uint32>, b: BoxDataContainer, ver: Version)
    requires !KnownDtype(b.dtype)
    ensures CreateSpace(SpaceDescription(name, BoxSpace(shape, b.dtype)), ver) == Err(ValueError)
    ensures CreateData(DataContainer(name, BoxData(b)), ver) == Err(ValueError)
  {
  }

  /** A box observation is read from the field its dtype selects; its shape and name play no part. */
  lemma BoxObservationIgnoresShape(name: string, name': string, b: BoxDataContainer, shape: seq<uint32>, ver: Version)
    ensures CreateData(DataContainer(name', BoxData(b.(shape := shape))), ver) == CreateData(DataContainer(name, BoxData(b)), ver)
    ensures b.dtype == INT ==> CreateData(DataContainer(name, BoxData(b)), ver) == Ok(PyArray([|b.intData|], seq(|b.intData|, i requires 0 <= i < |b.intData| => I32(b.intData[i]))))
  {
    if b.dtype == INT {
      var a := ArrayOf(Ints(b.intData));
      assert a.elems == seq(|b.intData|, i requires 0 <= i < |b.intData| => I32(b.intData[i]));
    }
  }

  // ---------------------------------------------------------------------
  // The defects in building spaces, observations and actions, and the corrected behaviour
  // ---------------------------------------------------------------------

  /** As written, a DOUBLE box space becomes `float32`, and any action packed for it is tagged FLOAT. */
  lemma DoubleSpaceSentBackAsFloat(name: string, shape: seq<uint32>, a: PyValue, casts: Casts)
    ensures CreateSpace(SpaceDescription(name, BoxSpace(shape, DOUBLE)), AsWritten) == Ok(GymBox(shape, "float32"))
    ensures var r := PackData(a, GymBox(shape, "float32"), GymBox(shape, "float32"), casts, AsWritten);
      r.Ok? ==> r.value.data.box.dtype == FLOAT
    ensures PackCode("float64", AsWritten) == Some(FLOAT)
  {
  }

  /** Corrected, every known dtype survives the way from space description to packed action. */
  lemma DtypeRoundTrip(d: Dtype)
    requires KnownDtype(d)
    ensures PackCode(SpaceTypeName(d, Corrected).value, Corrected) == Some(d)
  {
    assert "float32" !in INT_NAMES && "float32" !in UINT_NAMES;
    assert "float64" !in INT_NAMES && "float64" !in UINT_NAMES;
    assert "float64" !in ["float32"];
  }

  /** gymnasium's `Discrete` asserts a positive count: a discrete space of zero values fails the assertion. */
  lemma DiscreteSpaceNeedsValues(name: string, n: uint32, ver: Version)
    ensures n == 0 ==> CreateSpace(SpaceDescription(name, DiscreteSpace(n)), ver) == Err(AssertionError)
    ensures n > 0 ==> CreateSpace(SpaceDescription(name, DiscreteSpace(n)), ver) == Ok(GymDiscrete(n))
  {
  }

  /** As written, every tuple or dict observation raises `TypeError`; corrected, it arrives whole. */
  lemma CompoundObservationRejected(c: Container)
    requires c.Tuple? || c.Dict?
    ensures CreateData(Encode(c), AsWritten) == Err(TypeError)
    ensures CreateData(Encode(c), Corrected) == Ok(PyView(c))
  {
    ObservationRoundTrip(c);
  }

  /** As written, a tuple nested in the action space is packed against the outer tuple's subspaces and fails. */
  lemma NestedTupleActionRejected(casts: Casts)
    ensures var root := GymTuple([GymTuple([GymDiscrete(2)])]);
      var a := PyTuple([PyTuple([PyInt(1)])]);
      && Fits(a, root)
      && PackData(a, root, root, casts, AsWritten) == Err(AssertionError)
      && PackData(a, root, root, casts, Corrected) == Ok(DataContainer("", TupleData([DataContainer("", TupleData([DataContainer("", DiscreteData(1))]))])))
  {
    var root := GymTuple([GymTuple([GymDiscrete(2)])]);
    var inner := PyTuple([PyInt(1)]);
    assert PackData(PyInt(1), GymTuple([GymDiscrete(2)]), root, casts, AsWritten) == Err(AssertionError);
    assert PackData(inner, GymTuple([GymDiscrete(2)]), root, casts, AsWritten) == Err(AssertionError) by {
      var rs := seq(1, i requires 0 <= i < 1 => PackData(inner.items[i], root.elements[i], root, casts, AsWritten));
      assert rs[0] == Err(AssertionError);
    }
    var one := DataContainer("", DiscreteData(1));
    assert PackData(inner, GymTuple([GymDiscrete(2)]), root, casts, Corrected) == Ok(DataContainer("", TupleData([one]))) by {
      var rs := seq(1, i requires 0 <= i < 1 => PackData(inner.items[i], [GymDiscrete(2)][i], root, casts, Corrected));
      assert rs == [Ok(one)];
      assert Values(rs) == [one];
    }
    var a := PyTuple([inner]);
    var rs := seq(1, i requires 0 <= i < 1 => PackData(a.items[i], root.elements[i], root, casts, Corrected));
    assert rs == [Ok(DataContainer("", TupleData([one])))];
    assert Values(rs) == [DataContainer("", TupleData([one]))];
  }

  /** As written, a key of a dict nested in the action space is looked up in the outer dict and raises `KeyError`. */
  lemma NestedDictActionRejected(casts: Casts)
    ensures var root := GymDict(map["outer" := GymDict(map["inner" := GymDiscrete(2)])]);
      var a := PyDict([("outer", PyDict([("inner", PyInt(1))]))]);
      && Fits(a, root)
      && PackData(a, root, root, casts, AsWritten) == Err(KeyError)
      && PackData(a, root, root, casts, Corrected).Ok?
  {
    var root := GymDict(map["outer" := GymDict(map["inner" := GymDiscrete(2)])]);
    var inner := PyDict([("inner", PyInt(1))]);
    var a := PyDict([("outer", inner)]);
    assert "inner" !in root.members;
    assert PackData(inner, root.members["outer"], root, casts, AsWritten) == Err(KeyError);
    assert Fits(a, root) by {
      assert Fits(inner, root.members["outer"]);
    }
    assert WellFormed(a);
    PackFits(a, root, root, casts);
  }

  // ---------------------------------------------------------------------
  // The environment as a value
  // ---------------------------------------------------------------------

  /** `extraInfo`: unset, the text of the last state, or `{}` for an empty text. */
  datatype Info = NoInfo | InfoText(text: string) | EmptyInfo

  datatype PyEvent = PyReceived(frame: SimFrame) | PySent(reply: CtrlFrame)

  /**
   * The fields of the environment. `connected` is a message interface
   * being present; `log` is what the current run's channel carried,
   * `incoming` what the simulator will still write to it.
   */
  datatype Env = Env(
    connected: bool,
    actionSpace: Option<GymSpace>,
    observationSpace: Option<GymSpace>,
    newStateRx: bool,
    obsData: Option<PyValue>,
    reward: Float32,
    gameOver: bool,
    gameOverReason: Option<Reason>,
    extraInfo: Info,
    envDirty: bool,
    log: seq<PyEvent>,
    incoming: seq<SimFrame>)

  /** The value of one simulator setting. */
  datatype Setting = StrSetting(s: string) | IntSetting(i: int) | FloatSetting(f: Float64)

  /** The `ns3Settings` argument: values for the simulator's command line, or none at all. */
  type Settings = Option<map<string, Setting>>

  /**
   * The simulator as `Experiment.run` launches it: what it will write on the
   * new channel, for the settings it is started with.
   */
  type Launcher = Settings -> seq<SimFrame>

  /** How a call ends: it returns, it raises, or it waits forever in a receive. */
  datatype Status<T> = Done(value: T) | Raised(error: PyError) | Waiting

  function Abandon<T, U>(st: Status<T>): (r: Status<U>)
    requires !st.Done?
    ensures r.Waiting? <==> st.Waiting?
  {
    match st
    case Raised(err) => Raised(err)
    case Waiting => Waiting
  }

  datatype StepResult = StepResult(obs: Option<PyValue>, reward: Float32, terminated: bool, truncated: bool, info: Info)

  function PyRecv(e: Env): (Env, Option<SimFrame>)
  {
    if e.incoming == [] then (e, None)
    else (e.(log := e.log + [PyReceived(e.incoming[0])], incoming := e.incoming[1..]), Some(e.incoming[0]))
  }

  function PySend(e: Env, f: CtrlFrame): Env
  {
    e.(log := e.log + [PySent(f)])
  }

  /** The close command: an action message with only the stop flag. */
  const CLOSE_COMMAND: CtrlFrame := ActFrame(EnvActMsg(None, true))

  /** `initialize_env`: read the init message, build both spaces, acknowledge. */
  function InitializeEnvSpec(e: Env, ver: Version): (Env, Status<bool>)
  {
    if !e.connected then (e, Done(false))
    else
      var (e1, f) := PyRecv(e);
      if f.None? then (e1, Waiting)
      else
        var msg := InitOf(f.value);
        match CreateSpace(SpaceOrEmpty(msg.actSpace), ver)
        case Err(err) => (e1, Raised(err))
        case Ok(act) =>
          var e2 := e1.(actionSpace := Some(act));
          (match CreateSpace(SpaceOrEmpty(msg.obsSpace), ver)
           case Err(err) => (e2, Raised(err))
           case Ok(obs) => (PySend(e2.(observationSpace := Some(obs)), AckFrame(SimInitAck(true, false))), Done(true)))
  }

  /** `send_close_command` */
  function SendCloseCommandSpec(e: Env): (r: (Env, Status<bool>))
    ensures r.1 == Done(e.connected)
  {
    if !e.connected then (e, Done(false))
    else (PySend(e, CLOSE_COMMAND).(newStateRx := false), Done(true))
  }

  /** `rx_env_state`: at most one state per sent action; a game-over state is answered with the close command. */
  function RxEnvStateSpec(e: Env, ver: Version): (Env, Status<()>)
  {
    if e.newStateRx || !e.connected then (e, Done(()))
    else
      var (e1, f) := PyRecv(e);
      if f.None? then (e1, Waiting)
      else
        var m := StateOf(f.value);
        match CreateData(DataOrEmpty(m.obsData), ver)
        case Err(err) => (e1, Raised(err))
        case Ok(obs) =>
          // An unset reason is held as `None`; no call reads `gameOverReason` back.
          var e2 := e1.(obsData := Some(obs), reward := m.reward, gameOver := m.isGameOver, gameOverReason := m.reason);
          var e3 := if m.isGameOver then SendCloseCommandSpec(e2).0 else e2;
          (e3.(extraInfo := if m.info == "" then EmptyInfo else InfoText(m.info), newStateRx := true), Done(()))
  }

  /** `send_actions`: the action is packed before anything is sent, so a packing error sends nothing. */
  function SendActionsSpec(e: Env, actions: PyValue, casts: Casts, ver: Version): (Env, Status<bool>)
  {
    if e.actionSpace.None? then (e, Raised(AttributeError))
    else
      match PackData(actions, e.actionSpace.value, e.actionSpace.value, casts, ver)
      case Err(err) => (e, Raised(err))
      case Ok(data) =>
        if !e.connected then (e, Done(false))
        else (PySend(e, ActFrame(EnvActMsg(Some(data), false))).(newStateRx := false), Done(true))
  }

  /** `get_state`: truncation is never reported; the extra info goes under the key `info`. */
  function GetState(e: Env): (r: StepResult)
    ensures !r.truncated
    ensures r.terminated == e.gameOver && r.obs == e.obsData && r.reward == e.reward && r.info == e.extraInfo
  {
    StepResult(e.obsData, e.reward, e.gameOver, false, e.extraInfo)
  }

  /** `step` */
  function StepSpec(e: Env, actions: PyValue, casts: Casts, ver: Version): (Env, Status<StepResult>)
  {
    var (e1, st1) := SendActionsSpec(e, actions, casts, ver);
    if !st1.Done? then (e1, Abandon(st1))
    else
      var (e2, st2) := RxEnvStateSpec(e1, ver);
      if !st2.Done? then (e2, Abandon(st2))
      else
        var e3 := e2.(envDirty := true);
        (e3, Done(GetState(e3)))
  }

  /** A new run of the simulator: a new channel, every per-run field back to its initial value. */
  function Restart(e: Env, incoming: seq<SimFrame>): Env
  {
    e.(connected := true, newStateRx := false, obsData := None, reward := FLOAT32_ZERO, gameOver := false,
       gameOverReason := None, extraInfo := NoInfo, log := [], incoming := incoming)
  }

  /** The handshake and the first observation: the tail shared by `__init__` and `reset`. */
  function StartSpec(e: Env, ver: Version): (Env, Status<()>)
  {
    var (e1, st1) := InitializeEnvSpec(e, ver);
    if !st1.Done? then (e1, Abandon(st1))
    else
      var (e2, st2) := RxEnvStateSpec(e1, ver);
      if !st2.Done? then (e2, st2)
      else (e2.(envDirty := false), Done(()))
  }

  const UNSTARTED: Env := Env(false, None, None, false, None, FLOAT32_ZERO, false, None, NoInfo, false, [], [])

  /** `__init__`: launch the simulator with the settings given and take the first state. */
  function ConstructSpec(settings: Settings, launch: Launcher, ver: Version): (Env, Status<()>)
  {
    StartSpec(Restart(UNSTARTED, launch(settings)), ver)
  }

  /** Ending a run that is not over: take the pending state if any, then send the close command. */
  function FinishRunSpec(e: Env, ver: Version): (Env, Status<bool>)
  {
    var (e1, st1) := RxEnvStateSpec(e, ver);
    if !st1.Done? then (e1, Abandon(st1))
    else SendCloseCommandSpec(e1)
  }

  /** The settings a reset launches the simulator with: as written none, whatever `__init__` was given. */
  function RelaunchSettings(settings: Settings, ver: Version): (s: Settings)
    ensures ver == Corrected ==> s == settings
    ensures ver == AsWritten ==> s.None?
  {
    if ver == AsWritten then None else settings
  }

  /**
   * `reset`, for an environment constructed with `settings`: nothing while
   * clean; otherwise end the run and launch the simulator again.
   */
  function ResetSpec(e: Env, settings: Settings, launch: Launcher, ver: Version): (Env, Status<Option<PyValue>>)
  {
    if !e.envDirty then (e, Done(e.obsData))
    else
      var (e1, st1) := if e.gameOver then (e, Done(true)) else FinishRunSpec(e, ver);
      if !st1.Done? then (e1, Abandon(st1))
      else
        var (e2, st2) := StartSpec(Restart(e1.(connected := false), launch(RelaunchSettings(settings, ver))), ver);
        if !st2.Done? then (e2, Abandon(st2))
        else (e2, Done(e2.obsData))
  }

  // ---------------------------------------------------------------------
  // Properties of the environment
  // ---------------------------------------------------------------------

  /** Without a message interface nothing is received or sent; with one, one receive and then the acknowledgement. */
  lemma InitializeEnvExchange(e: Env, ver: Version)
    ensures !e.connected ==> InitializeEnvSpec(e, ver) == (e, Done(false))
    ensures e.connected && InitializeEnvSpec(e, ver).1.Done? ==>
      && e.incoming != []
      && InitializeEnvSpec(e, ver).1 == Done(true)
      && InitializeEnvSpec(e, ver).0.log == e.log + [PyReceived(e.incoming[0]), PySent(AckFrame(SimInitAck(true, false)))]
  {
  }

  /** `send_close_command` and a successful `send_actions` each send one frame and clear `newStateRx`; a packing error sends nothing. */
  lemma SendsOnce(e: Env, actions: PyValue, casts: Casts, ver: Version)
    requires e.connected
    ensures var e' := SendCloseCommandSpec(e).0;
      e'.log == e.log + [PySent(CLOSE_COMMAND)] && !e'.newStateRx
    ensures var (e', st) := SendActionsSpec(e, actions, casts, ver);
      && (st.Done? ==>
        && |e'.log| == |e.log| + 1 && e'.log[..|e.log|] == e.log
        && e'.log[|e.log|].PySent? && e'.log[|e.log|].reply.ActFrame? && !e'.log[|e.log|].reply.act.stopSimReq
        && !e'.newStateRx && e'.connected && e'.gameOver == e.gameOver)
      && (!st.Done? ==> e' == e)
  {
  }

  /** A state already received and not yet answered is not received again. */
  lemma RxOnlyOnce(e: Env, ver: Version)
    requires e.newStateRx
    ensures RxEnvStateSpec(e, ver) == (e, Done(()))
  {
  }

  /** Otherwise one state is received and then held: one receive, and the close command after a game-over state. */
  lemma RxReceivesOne(e: Env, ver: Version)
    requires e.connected && !e.newStateRx
    requires RxEnvStateSpec(e, ver).1.Done?
    ensures var e' := RxEnvStateSpec(e, ver).0;
      && e.incoming != []
      && e'.newStateRx
      && e'.gameOver == StateOf(e.incoming[0]).isGameOver
      && e'.log == e.log + [PyReceived(e.incoming[0])] + (if e'.gameOver then [PySent(CLOSE_COMMAND)] else [])
  {
  }

  /** An empty info text is reported as `{}`; any other text as itself. */
  lemma InfoReported(e: Env, ver: Version)
    requires e.connected && !e.newStateRx && e.incoming != [] && e.incoming[0].StateFrame?
    requires CreateData(DataOrEmpty(e.incoming[0].state.obsData), ver).Ok?
    ensures var info := e.incoming[0].state.info;
      var e' := RxEnvStateSpec(e, ver).0;
      && (info == "" ==> e'.extraInfo == EmptyInfo)
      && (info != "" ==> e'.extraInfo == InfoText(info))
  {
  }

  /** A reset of a clean environment returns the current observation and does nothing else. */
  lemma CleanResetIsQuiet(e: Env, settings: Settings, launch: Launcher, ver: Version)
    requires !e.envDirty
    ensures ResetSpec(e, settings, launch, ver) == (e, Done(e.obsData))
  {
  }

  /**
   * A successful reset leaves the environment exactly as a new one
   * constructed with the settings the reset launches the simulator with.
   */
  lemma ResetLikeNew(e: Env, settings: Settings, launch: Launcher, ver: Version)
    requires e.envDirty
    requires ResetSpec(e, settings, launch, ver).1.Done?
    ensures ConstructSpec(RelaunchSettings(settings, ver), launch, ver).1.Done?
    ensures ResetSpec(e, settings, launch, ver).0 == ConstructSpec(RelaunchSettings(settings, ver), launch, ver).0
  {
    var (e1, st1) := if e.gameOver then (e, Done(true)) else FinishRunSpec(e, ver);
    StartForgets(e1.(connected := false), UNSTARTED, launch(RelaunchSettings(settings, ver)), ver);
  }

  /**
   * As written a reset drops the settings: the environment it leaves is a
   * new one constructed without settings, and the first frame it reads is
   * the one the simulator writes when launched with none, whatever the
   * settings `__init__` was given.
   */
  lemma ResetDropsSettings(e: Env, settings: Settings, launch: Launcher)
    requires e.envDirty
    requires ResetSpec(e, settings, launch, AsWritten).1.Done?
    ensures ResetSpec(e, settings, launch, AsWritten).0 == ConstructSpec(None, launch, AsWritten).0
    ensures launch(None) != [] && ResetSpec(e, settings, launch, AsWritten).0.log[0] == PyReceived(launch(None)[0])
  {
    ResetLikeNew(e, settings, launch, AsWritten);
    ConstructFirstRead(None, launch, AsWritten);
  }

  /** Corrected, a successful reset leaves exactly what `__init__` with the same settings left. */
  lemma ResetKeepsSettings(e: Env, settings: Settings, launch: Launcher)
    requires e.envDirty
    requires ResetSpec(e, settings, launch, Corrected).1.Done?
    ensures ResetSpec(e, settings, launch, Corrected).0 == ConstructSpec(settings, launch, Corrected).0
    ensures launch(settings) != [] && ResetSpec(e, settings, launch, Corrected).0.log[0] == PyReceived(launch(settings)[0])
  {
    ResetLikeNew(e, settings, launch, Corrected);
    ConstructFirstRead(settings, launch, Corrected);
  }

  /** A new environment that started has read, first, what the simulator wrote first when launched with its settings. */
  lemma ConstructFirstRead(settings: Settings, launch: Launcher, ver: Version)
    requires ConstructSpec(settings, launch, ver).1.Done?
    ensures launch(settings) != [] && |ConstructSpec(settings, launch, ver).0.log| >= 2
    ensures ConstructSpec(settings, launch, ver).0.log[0] == PyReceived(launch(settings)[0])
  {
    var e1 := InitializeEnvSpec(Restart(UNSTARTED, launch(settings)), ver).0;
    assert e1.log[0] == PyReceived(launch(settings)[0]);
    var e2 := RxEnvStateSpec(e1, ver).0;
    assert e2.log[..|e1.log|] == e1.log;
  }

  /** Starting a run overwrites every field it depends on: what was there before does not matter once it succeeds. */
  lemma StartForgets(x: Env, y: Env, incoming: seq<SimFrame>, ver: Version)
    requires StartSpec(Restart(x, incoming), ver).1.Done?
    ensures StartSpec(Restart(y, incoming), ver).1.Done?
    ensures StartSpec(Restart(x, incoming), ver).0 == StartSpec(Restart(y, incoming), ver).0
  {
    var ix := InitializeEnvSpec(Restart(x, incoming), ver).0;
    var iy := InitializeEnvSpec(Restart(y, incoming), ver).0;
    assert ix == iy.(envDirty := x.envDirty);
  }

  /** Receives and sends alternate on the channel, starting with a receive. */
  predicate PyAlternates(log: seq<PyEvent>)
  {
    forall i :: 0 <= i < |log| ==> (log[i].PyReceived? <==> i % 2 == 0)
  }

  /** What the controller sends, by position: the acknowledgement second, action messages after it. */
  predicate SentInKind(log: seq<PyEvent>)
  {
    forall i :: 0 <= i < |log| && log[i].PySent? ==> if i == 1 then log[i].reply.AckFrame? else log[i].reply.ActFrame?
  }

  /**
   * Paired with the simulator: the controller owes a reply (an odd number
   * of events) exactly when it holds a state that is not a game over, and
   * it has answered the init message with the acknowledgement and every
   * state with an action message.
   */
  predicate Paired(e: Env)
  {
    && e.connected
    && |e.log| >= 2
    && PyAlternates(e.log)
    && SentInKind(e.log)
    && (|e.log| % 2 == 1 <==> e.newStateRx && !e.gameOver)
  }

  /** The state read after a successful receive, once the handshake is over, keeps the pairing. */
  lemma RxPairs(e: Env, ver: Version)
    requires e.connected && |e.log| >= 2 && PyAlternates(e.log) && SentInKind(e.log) && |e.log| % 2 == 0 && !e.newStateRx
    requires RxEnvStateSpec(e, ver).1.Done?
    ensures Paired(RxEnvStateSpec(e, ver).0)
  {
    var log' := RxEnvStateSpec(e, ver).0.log;
    RxReceivesOne(e, ver);
    forall i | 0 <= i < |log'| && log'[i].PySent? ensures if i == 1 then log'[i].reply.AckFrame? else log'[i].reply.ActFrame? {
      if i < |e.log| {
        assert log'[i] == e.log[i];
      }
    }
  }

  /** A new environment that starts without an exception is paired. */
  lemma ConstructPaired(settings: Settings, launch: Launcher, ver: Version)
    requires ConstructSpec(settings, launch, ver).1.Done?
    ensures Paired(ConstructSpec(settings, launch, ver).0)
  {
    var e0 := Restart(UNSTARTED, launch(settings));
    var e1 := InitializeEnvSpec(e0, ver).0;
    assert |e1.log| == 2;
    RxPairs(e1, ver);
  }

  /** A step taken while a state that is not a game over is held marks the environment dirty and keeps it paired. */
  lemma StepPaired(e: Env, actions: PyValue, casts: Casts, ver: Version)
    requires Paired(e) && e.newStateRx && !e.gameOver
    requires StepSpec(e, actions, casts, ver).1.Done?
    ensures Paired(StepSpec(e, actions, casts, ver).0)
    ensures StepSpec(e, actions, casts, ver).0.envDirty
  {
    var e1 := SendActionsSpec(e, actions, casts, ver).0;
    StepParts(e, actions, casts, ver);
    SendsOnce(e, actions, casts, ver);
    AlternatesSend(e.log, e1.log);
    RxPairs(e1, ver);
  }

  /**
   * A step taken after a game-over state, which was already answered with
   * the close command, sends its action where the controller should read:
   * the environment is no longer paired with the simulator.
   */
  lemma StepAfterGameOverUnpairs(e: Env, actions: PyValue, casts: Casts, ver: Version)
    requires Paired(e) && e.gameOver
    requires StepSpec(e, actions, casts, ver).1.Done?
    ensures !Paired(StepSpec(e, actions, casts, ver).0)
  {
    var e1 := SendActionsSpec(e, actions, casts, ver).0;
    var e' := StepSpec(e, actions, casts, ver).0;
    StepParts(e, actions, casts, ver);
    SendsOnce(e, actions, casts, ver);
    RxReceivesOne(e1, ver);
    assert e'.log[|e.log|] == e1.log[|e.log|];
    assert |e.log| % 2 == 0;
  }

  /** An action sent after an unanswered receive keeps receives and sends alternating, and in kind. */
  lemma AlternatesSend(log: seq<PyEvent>, log': seq<PyEvent>)
    requires PyAlternates(log) && SentInKind(log) && |log| % 2 == 1 && |log| > 1
    requires |log'| == |log| + 1 && log'[..|log|] == log && log'[|log|].PySent? && log'[|log|].reply.ActFrame?
    ensures PyAlternates(log') && SentInKind(log')
  {
    forall i | 0 <= i < |log'| ensures log'[i].PyReceived? <==> i % 2 == 0 {
      if i < |log| {
        assert log'[i] == log[i];
      }
    }
    forall i | 0 <= i < |log'| && log'[i].PySent? ensures if i == 1 then log'[i].reply.AckFrame? else log'[i].reply.ActFrame? {
      if i < |log| {
        assert log'[i] == log[i];
      }
    }
  }

  /** A step that returns: a send that returned, then a receive that returned. */
  lemma StepParts(e: Env, actions: PyValue, casts: Casts, ver: Version)
    requires StepSpec(e, actions, casts, ver).1.Done?
    ensures SendActionsSpec(e, actions, casts, ver).1.Done?
    ensures var e1 := SendActionsSpec(e, actions, casts, ver).0;
      && RxEnvStateSpec(e1, ver).1.Done?
      && StepSpec(e, actions, casts, ver).0 == RxEnvStateSpec(e1, ver).0.(envDirty := true)
  {
  }

  /** Such a step sends one action without the stop flag and then receives one state. */
  lemma StepExchanges(e: Env, actions: PyValue, casts: Casts, ver: Version)
    requires e.connected && !e.gameOver
    requires StepSpec(e, actions, casts, ver).1.Done?
    ensures var e' := StepSpec(e, actions, casts, ver).0;
      && |e'.log| >= |e.log| + 2
      && e'.log[..|e.log|] == e.log
      && e'.log[|e.log|].PySent? && e'.log[|e.log|].reply.ActFrame? && !e'.log[|e.log|].reply.act.stopSimReq
      && e'.log[|e.log| + 1].PyReceived?
  {
    var e1 := SendActionsSpec(e, actions, casts, ver).0;
    SendsOnce(e, actions, casts, ver);
    StepParts(e, actions, casts, ver);
    RxReceivesOne(e1, ver);
  }

  /** A successful reset leaves a paired environment. */
  lemma ResetPaired(e: Env, settings: Settings, launch: Launcher, ver: Version)
    requires ResetSpec(e, settings, launch, ver).1.Done?
    requires Paired(e)
    ensures Paired(ResetSpec(e, settings, launch, ver).0)
  {
    if e.envDirty {
      ResetLikeNew(e, settings, launch, ver);
      ConstructPaired(RelaunchSettings(settings, ver), launch, ver);
    }
  }

  // ---------------------------------------------------------------------
  // The class
  // ---------------------------------------------------------------------

  class Ns3Env {
    /** Which version of the decoders, the packer and `reset` the environment runs. */
    const ver: Version
    /** `ns3Settings`, as `__init__` was given them. */
    const ns3Settings: Settings
    /** `exp`: the simulator that `__init__` and `reset` launch. */
    const exp: Launcher
    var connected: bool
    var actionSpace: Option<GymSpace>
    var observationSpace: Option<GymSpace>
    var newStateRx: bool
    var obsData: Option<PyValue>
    var reward: Float32
    var gameOver: bool
    var gameOverReason: Option<Reason>
    var extraInfo: Info
    var envDirty: bool
    var log: seq<PyEvent>
    var incoming: seq<SimFrame>
    /**
     * How `__init__` ended. Python has no object unless it returned: an
     * exception propagates to the caller and a receive with nothing to read
     * never returns. A caller holds a usable environment exactly when this is `Done`.
     */
    var started: Status<()>

    function Snapshot(): Env
      reads this
    {
      Env(connected, actionSpace, observationSpace, newStateRx, obsData, reward, gameOver,
          gameOverReason, extraInfo, envDirty, log, incoming)
    }

    /** `__init__`: launch the simulator with `ns3Settings` and take the first state. */
    constructor (ns3Settings: Settings, exp: Launcher, ver: Version)
      ensures this.ver == ver && this.ns3Settings == ns3Settings && this.exp == exp
      ensures Snapshot() == ConstructSpec(ns3Settings, exp, ver).0
      ensures started == ConstructSpec(ns3Settings, exp, ver).1
    {
      this.ver := ver;
      this.ns3Settings := ns3Settings;
      this.exp := exp;
      connected, actionSpace, observationSpace, newStateRx := false, None, None, false;
      obsData, reward, gameOver, gameOverReason := None, FLOAT32_ZERO, false, None;
      extraInfo, envDirty, log, this.incoming := NoInfo, false, [], [];
      started := Waiting;
      new;
      NewRun(exp(ns3Settings));
      var st := Start();
      started := st;
    }

    /** A new run: every per-run field back to its initial value. */
    method NewRun(incoming: seq<SimFrame>)
      modifies this
      ensures started == old(started)
      ensures Snapshot() == Restart(old(Snapshot()), incoming)
    {
      connected := true;
      newStateRx := false;
      obsData := None;
      reward := FLOAT32_ZERO;
      gameOver := false;
      gameOverReason := None;
      extraInfo := NoInfo;
      log := [];
      this.incoming := incoming;
    }

    method Receive() returns (f: Option<SimFrame>)
      modifies this
      ensures started == old(started)
      ensures (Snapshot(), f) == PyRecv(old(Snapshot()))
    {
      if incoming == [] {
        f := None;
      } else {
        f := Some(incoming[0]);
        log := log + [PyReceived(incoming[0])];
        incoming := incoming[1..];
      }
    }

    method Send(reply: CtrlFrame)
      modifies this
      ensures started == old(started)
      ensures Snapshot() == PySend(old(Snapshot()), reply)
    {
      log := log + [PySent(reply)];
    }

    method InitializeEnv() returns (st: Status<bool>)
      modifies this
      ensures started == old(started)
      ensures (Snapshot(), st) == InitializeEnvSpec(old(Snapshot()), ver)
    {
      if !connected {
        return Done(false);
      }
      var f := Receive();
      if f.None? {
        return Waiting;
      }
      var msg := InitOf(f.value);
      var act := CreateSpace(SpaceOrEmpty(msg.actSpace), ver);
      if act.Err? {
        return Raised(act.error);
      }
      actionSpace := Some(act.value);
      var obs := CreateSpace(SpaceOrEmpty(msg.obsSpace), ver);
      if obs.Err? {
        return Raised(obs.error);
      }
      observationSpace := Some(obs.value);
      Send(AckFrame(SimInitAck(true, false)));
      return Done(true);
    }

    method SendCloseCommand() returns (sent: bool)
      modifies this
      ensures started == old(started)
      ensures (Snapshot(), Done(sent)) == SendCloseCommandSpec(old(Snapshot()))
    {
      if !connected {
        return false;
      }
      Send(CLOSE_COMMAND);
      newStateRx := false;
      return true;
    }

    method RxEnvState() returns (st: Status<()>)
      modifies this
      ensures started == old(started)
      ensures (Snapshot(), st) == RxEnvStateSpec(old(Snapshot()), ver)
    {
      if newStateRx || !connected {
        return Done(());
      }
      var f := Receive();
      if f.None? {
        return Waiting;
      }
      var m := StateOf(f.value);
      var obs := CreateData(DataOrEmpty(m.obsData), ver);
      if obs.Err? {
        return Raised(obs.error);
      }
      obsData := Some(obs.value);
      reward := m.reward;
      gameOver := m.isGameOver;
      gameOverReason := m.reason;
      if gameOver {
        var _ := SendCloseCommand();
      }
      extraInfo := if m.info == "" then EmptyInfo else InfoText(m.info);
      newStateRx := true;
      return Done(());
    }

    method SendActions(actions: PyValue, casts: Casts) returns (st: Status<bool>)
      modifies this
      ensures started == old(started)
      ensures (Snapshot(), st) == SendActionsSpec(old(Snapshot()), actions, casts, ver)
    {
      if actionSpace.None? {
        return Raised(AttributeError);
      }
      var msg := PackData(actions, actionSpace.value, actionSpace.value, casts, ver);
      if msg.Err? {
        return Raised(msg.error);
      }
      if !connected {
        return Done(false);
      }
      Send(ActFrame(EnvActMsg(Some(msg.value), false)));
      newStateRx := false;
      return Done(true);
    }

    method Step(actions: PyValue, casts: Casts) returns (st: Status<StepResult>)
      modifies this
      ensures started == old(started)
      ensures (Snapshot(), st) == StepSpec(old(Snapshot()), actions, casts, ver)
    {
      var st1 := SendActions(actions, casts);
      if !st1.Done? {
        return Abandon(st1);
      }
      var st2 := RxEnvState();
      if !st2.Done? {
        return Abandon(st2);
      }
      envDirty := true;
      return Done(GetState(Snapshot()));
    }

    method Start() returns (st: Status<()>)
      modifies this
      ensures started == old(started)
      ensures (Snapshot(), st) == StartSpec(old(Snapshot()), ver)
    {
      var st1 := InitializeEnv();
      if !st1.Done? {
        return Abandon(st1);
      }
      st := RxEnvState();
      if st.Done? {
        envDirty := false;
      }
    }

    method Reset() returns (st: Status<Option<PyValue>>)
      modifies this
      ensures started == old(started)
      ensures (Snapshot(), st) == ResetSpec(old(Snapshot()), ns3Settings, exp, ver)
    {
      if !envDirty {
        return Done(obsData);
      }
      if !gameOver {
        var st0 := RxEnvState();
        if !st0.Done? {
          return Abandon(st0);
        }
        var _ := SendCloseCommand();
      }
      connected := false;
      NewRun(if ver == AsWritten then exp(None) else exp(ns3Settings));
      var st2 := Start();
      if !st2.Done? {
        return Abandon(st2);
      }
      return Done(obsData);
    }
  }
}
