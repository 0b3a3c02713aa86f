/**
 * The data container: a recursive value of four variants (a discrete value,
 * a box of numbers, a tuple, a dict), its encoding into the `DataContainer`
 * message tree, the decoding back, and the text `Print` writes.
 */
module Container {
  import opened Wrappers
  import opened Scalars
  import opened Text
  import opened Messages

  // ---------------------------------------------------------------------
  // Box elements
  // ---------------------------------------------------------------------

  /** One element of a box, tagged with its element type. */
  datatype Elem = I32(i: int32) | U32(u: uint32) | F32(f: Float32) | F64(d: Float64)

  /** The flat data of a box: one arm per element type, so the type is fixed with the data. */
  datatype BoxValues =
    | Ints(ints: seq<int32>)
    | UInts(uints: seq<uint32>)
    | Floats(floats: seq<Float32>)
    | Doubles(doubles: seq<Float64>)

  function DtypeOf(vs: BoxValues): (d: Dtype)
    ensures KnownDtype(d)
  {
    match vs
    case Ints(_) => INT
    case UInts(_) => UINT
    case Floats(_) => FLOAT
    case Doubles(_) => DOUBLE
  }

  function ElemDtype(e: Elem): (d: Dtype)
    ensures KnownDtype(d)
  {
    match e
    case I32(_) => INT
    case U32(_) => UINT
    case F32(_) => FLOAT
    case F64(_) => DOUBLE
  }

  function Count(vs: BoxValues): nat
  {
    match vs
    case Ints(xs) => |xs|
    case UInts(xs) => |xs|
    case Floats(xs) => |xs|
    case Doubles(xs) => |xs|
  }

  function At(vs: BoxValues, i: nat): (e: Elem)
    requires i < Count(vs)
    ensures ElemDtype(e) == DtypeOf(vs)
  {
    match vs
    case Ints(xs) => I32(xs[i])
    case UInts(xs) => U32(xs[i])
    case Floats(xs) => F32(xs[i])
    case Doubles(xs) => F64(xs[i])
  }

  /** `push_back`: one more element at the end, of the box's own type. */
  function Append(vs: BoxValues, e: Elem): (r: BoxValues)
    requires ElemDtype(e) == DtypeOf(vs)
    ensures DtypeOf(r) == DtypeOf(vs)
    ensures Count(r) == Count(vs) + 1
    ensures forall i :: 0 <= i < Count(vs) ==> At(r, i) == At(vs, i)
    ensures At(r, Count(vs)) == e
  {
    match vs
    case Ints(xs) => Ints(xs + [e.i])
    case UInts(xs) => UInts(xs + [e.u])
    case Floats(xs) => Floats(xs + [e.f])
    case Doubles(xs) => Doubles(xs + [e.d])
  }

  /** An empty data vector of the given element type. */
  function NoValues(d: Dtype): (r: BoxValues)
    requires KnownDtype(d)
    ensures DtypeOf(r) == d && Count(r) == 0
  {
    match d
    case INT => Ints([])
    case UINT => UInts([])
    case FLOAT => Floats([])
    case DOUBLE => Doubles([])
  }

  /** `T data = 0` for the box's element type. */
  function ZeroOf(d: Dtype): (e: Elem)
    requires KnownDtype(d)
    ensures ElemDtype(e) == d
  {
    match d
    case INT => I32(0)
    case UINT => U32(0)
    case FLOAT => F32(FLOAT32_ZERO)
    case DOUBLE => F64(FLOAT64_ZERO)
  }

  // ---------------------------------------------------------------------
  // The container value
  // ---------------------------------------------------------------------

  /**
   * A container. `n` of a discrete container is its documented bound
   * ("maximum allowed value plus one"); nothing relates it to `value`.
   * A box's `shape` is metadata only: nothing relates it to the data.
   */
  datatype Container =
    | Discrete(n: uint32, value: uint32)
    | Box(shape: seq<uint32>, values: BoxValues)
    | Tuple(items: seq<Container>)
    | Dict(entries: map<string, Container>)

  // ---------------------------------------------------------------------
  // SetDtype: the dtype tag of a box from the name of its element type
  // ---------------------------------------------------------------------

  const SIGNED_NAMES: set<string> := {"int8_t", "int16_t", "int32_t", "int64_t"}
  const UNSIGNED_NAMES: set<string> := {"uint8_t", "uint16_t", "uint32_t", "uint64_t"}

  /** The element types the box class is instantiated with. */
  const INSTANTIATED_NAMES: set<string> := {"int32_t", "uint32_t", "float", "double"}

  /** `SetDtype`; `None` is the abort on an unsupported element type. */
  function DtypeForTypeName(name: string): (r: Option<Dtype>)
    ensures r == Some(INT) <==> name in SIGNED_NAMES
    ensures r == Some(UINT) <==> name in UNSIGNED_NAMES
    ensures r == Some(FLOAT) <==> name == "float"
    ensures r == Some(DOUBLE) <==> name == "double"
    ensures r.None? <==> name !in SIGNED_NAMES + UNSIGNED_NAMES + {"float", "double"}
  {
    if name in SIGNED_NAMES then Some(INT)
    else if name in UNSIGNED_NAMES then Some(UINT)
    else if name == "float" then Some(FLOAT)
    else if name == "double" then Some(DOUBLE)
    else None
  }

  /** The storage type each instantiation holds, as its `BoxValues` arm. */
  function StorageFor(name: string): (vs: BoxValues)
    requires name in INSTANTIATED_NAMES
    ensures Count(vs) == 0
  {
    if name == "int32_t" then Ints([])
    else if name == "uint32_t" then UInts([])
    else if name == "float" then Floats([])
    else Doubles([])
  }

  /** Every instantiated box gets the tag that matches the data it stores. */
  lemma InstantiatedDtypesMatchStorage(name: string)
    requires name in INSTANTIATED_NAMES
    ensures DtypeForTypeName(name) == Some(DtypeOf(StorageFor(name)))
  {
  }

  // ---------------------------------------------------------------------
  // Encoding (GetDataContainerPbMsg)
  // ---------------------------------------------------------------------

  /** A box message: shape, dtype, and the data in the one field that matches the dtype. */
  function BoxMessage(shape: seq<uint32>, vs: BoxValues): (b: BoxDataContainer)
    ensures b.shape == shape && b.dtype == DtypeOf(vs)
  {
    match vs
    case Ints(xs) => BoxDataContainer(shape, INT, xs, [], [], [])
    case UInts(xs) => BoxDataContainer(shape, UINT, [], xs, [], [])
    case Floats(xs) => BoxDataContainer(shape, FLOAT, [], [], xs, [])
    case Doubles(xs) => BoxDataContainer(shape, DOUBLE, [], [], [], xs)
  }

  /** `set_name`: the element a dict emits for the entry under `key`. */
  function Named(m: DataContainer, key: string): DataContainer
  {
    m.(name := key)
  }

  /**
   * The message for a container. Only dict elements carry a name, which the
   * dict sets; a dict emits its entries in key order.
   */
  function Encode(c: Container): (m: DataContainer)
    ensures m.name == ""
    decreases c
  {
    match c
    case Discrete(_, v) => DataContainer("", DiscreteData(v))
    case Box(shape, vs) => DataContainer("", BoxData(BoxMessage(shape, vs)))
    case Tuple(items) =>
      DataContainer("", TupleData(seq(|items|, i requires 0 <= i < |items| => Encode(items[i]))))
    case Dict(entries) =>
      var ks := SortedKeys(entries.Keys);
      DataContainer("", DictData(seq(|ks|, i requires 0 <= i < |ks| => Named(Encode(entries[ks[i]]), ks[i]))))
  }

  /** The names of a list of elements, in order. */
  function Names(es: seq<DataContainer>): (ns: seq<string>)
    ensures |ns| == |es| && forall i :: 0 <= i < |es| ==> ns[i] == es[i].name
  {
    seq(|es|, i requires 0 <= i < |es| => es[i].name)
  }

  /** A dict is encoded as one element per key, named by that key, in ascending key order. */
  lemma DictElements(entries: map<string, Container>)
    ensures Encode(Dict(entries)).data.DictData?
    ensures var es := Encode(Dict(entries)).data.elements;
      && Names(es) == SortedKeys(entries.Keys)
      && |es| == |entries|
      && Ascending(Names(es))
      && forall i :: 0 <= i < |es| ==> es[i].name in entries && es[i].data == Encode(entries[es[i].name]).data
  {
  }

  // ---------------------------------------------------------------------
  // Decoding (CreateFromDataContainerPbMsg)
  // ---------------------------------------------------------------------

  /** The two aborts of the decoder. */
  datatype DecodeError = UnsupportedDataType | UnsupportedContainerType

  /** The first error among the results, in order: where a depth-first decode aborts. */
  function FirstError<T, E>(rs: seq<Result<T, E>>): (r: Option<E>)
    ensures r.None? <==> forall i :: 0 <= i < |rs| ==> rs[i].Ok?
    ensures r.Some? ==> exists i :: 0 <= i < |rs| && rs[i] == Err(r.value)
  {
    if rs == [] then None
    else if rs[0].Err? then Some(rs[0].error)
    else
      var r := FirstError(rs[1..]);
      assert forall i :: 0 <= i < |rs| - 1 ==> rs[1..][i] == rs[i + 1];
      r
  }

  function Values<T, E>(rs: seq<Result<T, E>>): (vs: seq<T>)
    requires forall i :: 0 <= i < |rs| ==> rs[i].Ok?
    ensures |vs| == |rs| && forall i :: 0 <= i < |rs| ==> rs[i] == Ok(vs[i])
  {
    seq(|rs|, i requires 0 <= i < |rs| => rs[i].value)
  }

  /** `std::map::insert`: a key already present keeps its value. */
  function Insert(m: map<string, Container>, key: string, c: Container): (r: map<string, Container>)
    ensures r.Keys == m.Keys + {key}
    ensures r[key] == if key in m then m[key] else c
    ensures forall k :: k in m ==> r[k] == m[k]
  {
    if key in m then m else m[key := c]
  }

  /** Inserting a list of entries in order, each with `Insert`. */
  function InsertAll(m: map<string, Container>, keys: seq<string>, cs: seq<Container>): map<string, Container>
    requires |keys| == |cs|
    decreases |keys|
  {
    if keys == [] then m else InsertAll(Insert(m, keys[0], cs[0]), keys[1..], cs[1..])
  }

  /** The box a message decodes to: the data field named by the dtype; the shape is not read. */
  function DecodeBox(b: BoxDataContainer): Result<Container, DecodeError>
  {
    match b.dtype
    case INT => Ok(Box([], Ints(b.intData)))
    case UINT => Ok(Box([], UInts(b.uintData)))
    case FLOAT => Ok(Box([], Floats(b.floatData)))
    case DOUBLE => Ok(Box([], Doubles(b.doubleData)))
    case UnrecognisedDtype(_) => Err(UnsupportedDataType)
  }

  /** The container a message decodes to, or the abort the decoder hits first. */
  function Decode(m: DataContainer): Result<Container, DecodeError>
    decreases m
  {
    match m.data
    case NoData => Err(UnsupportedContainerType)
    case DiscreteData(v) => Ok(Discrete(0, v))
    case BoxData(b) => DecodeBox(b)
    case TupleData(es) =>
      var rs := seq(|es|, i requires 0 <= i < |es| => Decode(es[i]));
      (match FirstError(rs)
       case Some(e) => Err(e)
       case None => Ok(Tuple(Values(rs))))
    case DictData(es) =>
      var rs := seq(|es|, i requires 0 <= i < |es| => Decode(es[i]));
      (match FirstError(rs)
       case Some(e) => Err(e)
       case None => Ok(Dict(InsertAll(map[], Names(es), Values(rs)))))
  }

  // ---------------------------------------------------------------------
  // What decoding can reconstruct
  // ---------------------------------------------------------------------

  /** The container with everything the message does not carry back dropped: box shapes and discrete bounds. */
  function Erase(c: Container): Container
    decreases c
  {
    match c
    case Discrete(_, v) => Discrete(0, v)
    case Box(_, vs) => Box([], vs)
    case Tuple(items) => Tuple(seq(|items|, i requires 0 <= i < |items| => Erase(items[i])))
    case Dict(entries) => Dict(map k | k in entries :: Erase(entries[k]))
  }

  /** No box has a shape and no discrete container a bound: the containers a decoder builds. */
  predicate Bare(c: Container)
    decreases c
  {
    match c
    case Discrete(n, _) => n == 0
    case Box(shape, _) => shape == []
    case Tuple(items) => forall i :: 0 <= i < |items| ==> Bare(items[i])
    case Dict(entries) => forall k :: k in entries ==> Bare(entries[k])
  }

  /** Every node has a case set and every box a known dtype. */
  predicate Decodable(m: DataContainer)
    decreases m
  {
    match m.data
    case NoData => false
    case DiscreteData(_) => true
    case BoxData(b) => KnownDtype(b.dtype)
    case TupleData(es) => forall i :: 0 <= i < |es| ==> Decodable(es[i])
    case DictData(es) => forall i :: 0 <= i < |es| ==> Decodable(es[i])
  }

  // ---------------------------------------------------------------------
  // Properties of insertion
  // ---------------------------------------------------------------------

  lemma {:induction false} InsertAllKeys(m: map<string, Container>, keys: seq<string>, cs: seq<Container>)
    requires |keys| == |cs|
    ensures InsertAll(m, keys, cs).Keys == m.Keys + set k | k in keys
    decreases |keys|
  {
    if keys != [] {
      InsertAllKeys(Insert(m, keys[0], cs[0]), keys[1..], cs[1..]);
      assert forall k :: k in keys <==> k == keys[0] || k in keys[1..];
    }
  }

  /** A key already present is never overwritten by later inserts. */
  lemma {:induction false} InsertAllKeepsPresent(m: map<string, Container>, keys: seq<string>, cs: seq<Container>, k: string)
    requires |keys| == |cs| && k in m
    ensures k in InsertAll(m, keys, cs) && InsertAll(m, keys, cs)[k] == m[k]
    decreases |keys|
  {
    if keys != [] {
      InsertAllKeepsPresent(Insert(m, keys[0], cs[0]), keys[1..], cs[1..], k);
    }
  }

  /** A repeated key keeps the value of its first occurrence. */
  lemma {:induction false} InsertAllFirstWins(m: map<string, Container>, keys: seq<string>, cs: seq<Container>, i: nat)
    requires |keys| == |cs| && i < |keys| && keys[i] !in m
    requires forall j :: 0 <= j < i ==> keys[j] != keys[i]
    ensures keys[i] in InsertAll(m, keys, cs) && InsertAll(m, keys, cs)[keys[i]] == cs[i]
    decreases |keys|
  {
    var m' := Insert(m, keys[0], cs[0]);
    if i == 0 {
      InsertAllKeepsPresent(m', keys[1..], cs[1..], keys[0]);
    } else {
      InsertAllFirstWins(m', keys[1..], cs[1..], i - 1);
    }
  }

  // ---------------------------------------------------------------------
  // The round trip
  // ---------------------------------------------------------------------

  /** A dict element's name does not affect what its payload decodes to. */
  lemma DecodeIgnoresName(m: DataContainer, key: string)
    ensures Decode(Named(m, key)) == Decode(m)
  {
  }

  /**
   * Decoding an encoded container gives it back with box shapes and
   * discrete bounds dropped: variants, values, element types, tuple order
   * and dict keys all survive.
   */
  lemma {:induction false} RoundTrip(c: Container)
    ensures Decode(Encode(c)) == Ok(Erase(c))
    decreases c
  {
    match c
    case Discrete(_, _) =>
    case Box(_, vs) =>
      match vs {
        case Ints(_) =>
        case UInts(_) =>
        case Floats(_) =>
        case Doubles(_) =>
      }
    case Tuple(items) =>
      forall i | 0 <= i < |items| ensures Decode(Encode(items[i])) == Ok(Erase(items[i])) {
        RoundTrip(items[i]);
      }
      RoundTripTuple(items);
    case Dict(entries) =>
      forall k | k in entries ensures Decode(Encode(entries[k])) == Ok(Erase(entries[k])) {
        RoundTrip(entries[k]);
      }
      RoundTripDict(entries);
  }

  /** The tuple step of `RoundTrip`: elements come back in the same order. */
  lemma RoundTripTuple(items: seq<Container>)
    requires forall i :: 0 <= i < |items| ==> Decode(Encode(items[i])) == Ok(Erase(items[i]))
    ensures Decode(Encode(Tuple(items))) == Ok(Erase(Tuple(items)))
  {
    var es := Encode(Tuple(items)).data.elements;
    var rs := seq(|es|, i requires 0 <= i < |es| => Decode(es[i]));
    assert forall i :: 0 <= i < |items| ==> rs[i] == Ok(Erase(items[i]));
    assert FirstError(rs) == None;
    assert Values(rs) == Erase(Tuple(items)).items;
  }

  /** The dict step of `RoundTrip`: every key comes back with its own value. */
  lemma RoundTripDict(entries: map<string, Container>)
    requires forall k :: k in entries ==> Decode(Encode(entries[k])) == Ok(Erase(entries[k]))
    ensures Decode(Encode(Dict(entries))) == Ok(Erase(Dict(entries)))
  {
    var ks := SortedKeys(entries.Keys);
    var vals := seq(|ks|, i requires 0 <= i < |ks| => Erase(entries[ks[i]]));
    DictDecodesInKeyOrder(entries);
    ErasedEntries(entries, ks, vals);
  }

  /** An encoded dict decodes to its erased values inserted in ascending key order. */
  lemma DictDecodesInKeyOrder(entries: map<string, Container>)
    requires forall k :: k in entries ==> Decode(Encode(entries[k])) == Ok(Erase(entries[k]))
    ensures var ks := SortedKeys(entries.Keys);
      Decode(Encode(Dict(entries)))
      == Ok(Dict(InsertAll(map[], ks, seq(|ks|, i requires 0 <= i < |ks| => Erase(entries[ks[i]])))))
  {
    var ks := SortedKeys(entries.Keys);
    var es := seq(|ks|, i requires 0 <= i < |ks| => Named(Encode(entries[ks[i]]), ks[i]));
    var vals := seq(|ks|, i requires 0 <= i < |ks| => Erase(entries[ks[i]]));
    assert Encode(Dict(entries)) == DataContainer("", DictData(es));
    forall i | 0 <= i < |ks| ensures Decode(es[i]) == Ok(vals[i]) {
      DecodeIgnoresName(Encode(entries[ks[i]]), ks[i]);
    }
    DecodeDict(es, vals);
    assert Names(es) == ks;
  }

  lemma ErasedEntries(entries: map<string, Container>, ks: seq<string>, vals: seq<Container>)
    requires ks == SortedKeys(entries.Keys)
    requires |vals| == |ks| && forall i :: 0 <= i < |ks| ==> vals[i] == Erase(entries[ks[i]])
    ensures InsertAll(map[], ks, vals) == Erase(Dict(entries)).entries
  {
    var built := InsertAll(map[], ks, vals);
    InsertAllAscending(ks, vals);
    forall k | k in entries ensures k in built && built[k] == Erase(entries[k]) {
      var i :| 0 <= i < |ks| && ks[i] == k;
    }
  }

  /** A dict message whose elements all decode: the entries inserted in message order. */
  lemma DecodeDict(es: seq<DataContainer>, vals: seq<Container>)
    requires |vals| == |es| && forall i :: 0 <= i < |es| ==> Decode(es[i]) == Ok(vals[i])
    ensures Decode(DataContainer("", DictData(es))) == Ok(Dict(InsertAll(map[], Names(es), vals)))
  {
    var rs := seq(|es|, i requires 0 <= i < |es| => Decode(es[i]));
    assert FirstError(rs) == None;
    assert Values(rs) == vals;
  }

  /** Inserting ascending (so distinct) keys into an empty map: each key gets its own value. */
  lemma InsertAllAscending(ks: seq<string>, vals: seq<Container>)
    requires |ks| == |vals| && Ascending(ks)
    ensures InsertAll(map[], ks, vals).Keys == set k | k in ks
    ensures forall i :: 0 <= i < |ks| ==> InsertAll(map[], ks, vals)[ks[i]] == vals[i]
  {
    InsertAllKeys(map[], ks, vals);
    forall i | 0 <= i < |ks| ensures InsertAll(map[], ks, vals)[ks[i]] == vals[i] {
      forall j | 0 <= j < i ensures ks[j] != ks[i] {
        AscendingDistinct(ks, i, j);
      }
      InsertAllFirstWins(map[], ks, vals, i);
    }
  }

  /** `Erase` leaves a bare container unchanged. */
  lemma {:induction false} EraseBare(c: Container)
    requires Bare(c)
    ensures Erase(c) == c
    decreases c
  {
    match c
    case Discrete(_, _) =>
    case Box(_, _) =>
    case Tuple(items) =>
      forall i | 0 <= i < |items| ensures Erase(items[i]) == items[i] {
        EraseBare(items[i]);
      }
      assert Erase(c).items == items;
    case Dict(entries) =>
      forall k | k in entries ensures Erase(entries[k]) == entries[k] {
        EraseBare(entries[k]);
      }
      assert Erase(c).entries == entries;
  }

  /** For a container with no shapes and no bounds the round trip is exact. */
  lemma ExactRoundTrip(c: Container)
    requires Bare(c)
    ensures Decode(Encode(c)) == Ok(c)
  {
    RoundTrip(c);
    EraseBare(c);
  }

  /** Whatever the decoder builds has no shapes and no bounds: a box's shape is never restored. */
  lemma {:induction false} DecodedIsBare(m: DataContainer)
    requires Decode(m).Ok?
    ensures Bare(Decode(m).value)
    decreases m
  {
    match m.data
    case NoData =>
    case DiscreteData(_) =>
    case BoxData(b) =>
    case TupleData(es) =>
      var rs := seq(|es|, i requires 0 <= i < |es| => Decode(es[i]));
      assert FirstError(rs).None?;
      forall i | 0 <= i < |es| ensures Bare(rs[i].value) {
        assert rs[i] == Decode(es[i]);
        DecodedIsBare(es[i]);
      }
    case DictData(es) =>
      var rs := seq(|es|, i requires 0 <= i < |es| => Decode(es[i]));
      assert FirstError(rs).None?;
      forall i | 0 <= i < |es| ensures Bare(rs[i].value) {
        assert rs[i] == Decode(es[i]);
        DecodedIsBare(es[i]);
      }
      InsertAllBare(map[], Names(es), Values(rs));
  }

  lemma {:induction false} InsertAllBare(m: map<string, Container>, keys: seq<string>, cs: seq<Container>)
    requires |keys| == |cs|
    requires forall k :: k in m ==> Bare(m[k])
    requires forall i :: 0 <= i < |cs| ==> Bare(cs[i])
    ensures forall k :: k in InsertAll(m, keys, cs) ==> Bare(InsertAll(m, keys, cs)[k])
    decreases |keys|
  {
    if keys != [] {
      InsertAllBare(Insert(m, keys[0], cs[0]), keys[1..], cs[1..]);
    }
  }

  /** The decoder aborts exactly on a node with no case set or a box with an unknown dtype. */
  lemma {:induction false} DecodeSucceedsIff(m: DataContainer)
    ensures Decode(m).Ok? <==> Decodable(m)
    decreases m
  {
    match m.data
    case NoData =>
    case DiscreteData(_) =>
    case BoxData(b) =>
    case TupleData(es) =>
      var rs := seq(|es|, i requires 0 <= i < |es| => Decode(es[i]));
      forall i | 0 <= i < |es| ensures rs[i].Ok? <==> Decodable(es[i]) {
        DecodeSucceedsIff(es[i]);
      }
      assert FirstError(rs).None? <==> forall i :: 0 <= i < |es| ==> Decodable(es[i]);
    case DictData(es) =>
      var rs := seq(|es|, i requires 0 <= i < |es| => Decode(es[i]));
      forall i | 0 <= i < |es| ensures rs[i].Ok? <==> Decodable(es[i]) {
        DecodeSucceedsIff(es[i]);
      }
      assert FirstError(rs).None? <==> forall i :: 0 <= i < |es| ==> Decodable(es[i]);
  }

  /** Every encoding can be decoded. */
  lemma EncodedIsDecodable(c: Container)
    ensures Decodable(Encode(c))
  {
    RoundTrip(c);
    DecodeSucceedsIff(Encode(c));
  }

  // ---------------------------------------------------------------------
  // Worked cases
  // ---------------------------------------------------------------------

  /** A discrete value 7 comes back as 7. */
  lemma DiscreteSevenRoundTrips()
    ensures Decode(Encode(Discrete(0, 7))) == Ok(Discrete(0, 7))
  {
    ExactRoundTrip(Discrete(0, 7));
  }

  /** A float box of shape [2, 2] comes back with its four values in order, but with no shape. */
  lemma FloatBoxLosesShape(a: Float32, b: Float32, c: Float32, d: Float32)
    ensures Decode(Encode(Box([2, 2], Floats([a, b, c, d])))) == Ok(Box([], Floats([a, b, c, d])))
    ensures Decode(Encode(Box([2, 2], Floats([a, b, c, d])))) != Ok(Box([2, 2], Floats([a, b, c, d])))
  {
    RoundTrip(Box([2, 2], Floats([a, b, c, d])));
  }

  /** A tuple of a discrete value and an int box keeps its order; the box loses its shape. */
  lemma TupleKeepsOrder()
    ensures Decode(Encode(Tuple([Discrete(0, 3), Box([1], Ints([42]))]))) == Ok(Tuple([Discrete(0, 3), Box([], Ints([42]))]))
  {
    var c := Tuple([Discrete(0, 3), Box([1], Ints([42]))]);
    RoundTrip(c);
    assert Erase(c).items == [Discrete(0, 3), Box([], Ints([42]))];
  }

  /** Both keys of a decoded dict can be looked up by name. */
  lemma DictKeysRetrievable()
    ensures var r := Decode(Encode(Dict(map["obs1" := Discrete(0, 1), "obs2" := Discrete(0, 2)])));
      && r.Ok? && r.value.Dict?
      && r.value.entries.Keys == {"obs1", "obs2"}
      && r.value.entries["obs1"] == Discrete(0, 1)
      && r.value.entries["obs2"] == Discrete(0, 2)
  {
    var c := Dict(map["obs1" := Discrete(0, 1), "obs2" := Discrete(0, 2)]);
    ExactRoundTrip(c);
  }

  /** Two elements under the same name: the first one is kept. */
  lemma DuplicateNameFirstWins(a: uint32, b: uint32)
    ensures Decode(DataContainer("", DictData([DataContainer("k", DiscreteData(a)), DataContainer("k", DiscreteData(b))])))
         == Ok(Dict(map["k" := Discrete(0, a)]))
  {
    var es := [DataContainer("k", DiscreteData(a)), DataContainer("k", DiscreteData(b))];
    DecodeDict(es, [Discrete(0, a), Discrete(0, b)]);
    assert Names(es) == ["k", "k"];
    assert InsertAll(map[], ["k", "k"], [Discrete(0, a), Discrete(0, b)]) == map["k" := Discrete(0, a)] by {
      assert ["k", "k"][1..] == ["k"];
    }
  }
}
