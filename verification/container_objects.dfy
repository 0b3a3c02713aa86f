/**
 * The container classes: objects whose fields the setters change in
 * place. Each class gives its abstract value as a `Container`; encoding
 * and printing are proved to agree with `Encode` and `Show` on that value.
 * Children of a tuple or a dict are held as values.
 */
module ContainerObjects {
  import opened Wrappers
  import opened Scalars
  import opened Text
  import opened Messages
  import opened Container
  import opened ContainerText

  // ---------------------------------------------------------------------
  // Discrete
  // ---------------------------------------------------------------------

  class DiscreteContainer {
    /** The documented bound, "maximum allowed value plus one"; never checked. */
    var n: uint32
    var value: uint32

    function Value(): Container
      reads this
    {
      Discrete(n, value)
    }

    /** The default constructor: `n` is 0. */
    constructor (value: uint32)
      ensures Value() == Discrete(0, value)
    {
      n := 0;
      this.value := value;
    }

    /** The constructor that records a bound. */
    constructor WithBound(n: uint32, value: uint32)
      ensures Value() == Discrete(n, value)
    {
      this.n := n;
      this.value := value;
    }

    /** Any `uint32` is accepted, whatever the bound; the call always reports success. */
    method SetValue(v: uint32) returns (ok: bool)
      modifies this
      ensures ok && value == v && n == old(n)
    {
      value := v;
      ok := true;
    }

    method GetValue() returns (v: uint32)
      ensures v == value
    {
      v := value;
    }

    /** The message carries the value, and decodes to it (with the bound dropped). */
    method GetDataContainerPbMsg() returns (m: DataContainer)
      ensures m == Encode(Value())
      ensures m.data == DiscreteData(value)
      ensures Decode(m) == Ok(Discrete(0, value))
    {
      var v := GetValue();
      m := DataContainer("", DiscreteData(v));
    }

    method Print(ft: FloatText) returns (s: string)
      ensures s == Show(Value(), ft)
      ensures DigitsValue(s) == value as nat
    {
      s := Decimal(value as nat);
      DecimalValue(value as nat);
    }
  }

  // ---------------------------------------------------------------------
  // Box
  // ---------------------------------------------------------------------

  /**
   * `OpenGymBoxContainer<T>` for one of the four instantiations, named by
   * `typeName`. The tag is set once, by `SetDtype`, and the data always
   * has the element type the tag names.
   */
  class BoxContainer {
    const typeName: string
    const dtype: Dtype
    var shape: seq<uint32>
    var data: BoxValues

    predicate Valid()
      reads this
    {
      && typeName in INSTANTIATED_NAMES
      && DtypeForTypeName(typeName) == Some(dtype)
      && DtypeOf(data) == dtype
    }

    function Value(): Container
      reads this
    {
      Box(shape, data)
    }

    /** The default constructor: no shape, no data, the tag of the element type. */
    constructor (typeName: string)
      requires typeName in INSTANTIATED_NAMES
      ensures Valid() && this.typeName == typeName
      ensures Value() == Box([], StorageFor(typeName))
    {
      this.typeName := typeName;
      dtype := DtypeForTypeName(typeName).value;
      shape := [];
      data := StorageFor(typeName);
      InstantiatedDtypesMatchStorage(typeName);
    }

    constructor WithShape(typeName: string, shape: seq<uint32>)
      requires typeName in INSTANTIATED_NAMES
      ensures Valid() && this.typeName == typeName
      ensures Value() == Box(shape, StorageFor(typeName))
    {
      this.typeName := typeName;
      dtype := DtypeForTypeName(typeName).value;
      this.shape := shape;
      data := StorageFor(typeName);
      InstantiatedDtypesMatchStorage(typeName);
    }

    /** `push_back`: exactly one element more, at the end; the shape is not touched. */
    method AddValue(e: Elem) returns (ok: bool)
      requires Valid() && ElemDtype(e) == dtype
      modifies this
      ensures Valid() && ok
      ensures data == Append(old(data), e) && shape == old(shape)
    {
      data := Append(data, e);
      ok := true;
    }

    /** The element at `idx`, or zero of the element type when `idx` is past the end. */
    method GetValue(idx: uint32) returns (e: Elem)
      requires Valid()
      ensures ElemDtype(e) == dtype
      ensures idx as int < Count(data) ==> e == At(data, idx as nat)
      ensures idx as int >= Count(data) ==> e == ZeroOf(dtype)
    {
      if idx as int < Count(data) {
        e := At(data, idx as nat);
      } else {
        e := ZeroOf(dtype);
      }
    }

    /** The whole data vector is replaced; the shape is not touched. */
    method SetData(vs: BoxValues) returns (ok: bool)
      requires Valid() && DtypeOf(vs) == dtype
      modifies this
      ensures Valid() && ok
      ensures data == vs && shape == old(shape)
    {
      data := vs;
      ok := true;
    }

    method GetData() returns (vs: BoxValues)
      requires Valid()
      ensures vs == data && DtypeOf(vs) == dtype
    {
      vs := data;
    }

    method GetShape() returns (s: seq<uint32>)
      ensures s == shape
    {
      s := shape;
    }

    /**
     * Shape, tag, and the data in the one field the tag selects; the
     * message decodes to the same data with no shape.
     */
    method GetDataContainerPbMsg() returns (m: DataContainer)
      requires Valid()
      ensures m == Encode(Value())
      ensures Decode(m) == Ok(Box([], data))
    {
      var s := GetShape();
      var vs := GetData();
      var b: BoxDataContainer;
      match dtype {
        case INT => b := BoxDataContainer(s, INT, vs.ints, [], [], []);
        case UINT => b := BoxDataContainer(s, UINT, [], vs.uints, [], []);
        case FLOAT => b := BoxDataContainer(s, FLOAT, [], [], vs.floats, []);
        case DOUBLE => b := BoxDataContainer(s, DOUBLE, [], [], [], vs.doubles);
        case UnrecognisedDtype(_) => assert false;
      }
      assert b == BoxMessage(shape, data);
      m := DataContainer("", BoxData(b));
    }

    /** `[e1, e2, ..]`: one separator between neighbours, none after the last. */
    method Print(ft: FloatText) returns (s: string)
      ensures s == Show(Value(), ft)
    {
      ghost var parts := ElemTexts(data, ft);
      var count := Count(data);
      var body := "";
      var i := 0;
      while i < count
        invariant 0 <= i <= count == |parts|
        invariant body == Written(parts, i, SEP)
      {
        var text := ElemText(At(data, i), ft);
        var sep := if i + 1 < count then SEP else "";
        WrittenStep(parts, i, SEP);
        body := body + text + sep;
        i := i + 1;
      }
      WrittenAll(parts, SEP);
      s := "[" + body + "]";
    }
  }

  // ---------------------------------------------------------------------
  // Tuple
  // ---------------------------------------------------------------------

  class TupleContainer {
    var items: seq<Container>

    function Value(): Container
      reads this
    {
      Tuple(items)
    }

    constructor ()
      ensures Value() == Tuple([])
    {
      items := [];
    }

    /** `push_back`: the child goes last; the ones before keep their positions. */
    method Add(c: Container) returns (ok: bool)
      modifies this
      ensures ok && items == old(items) + [c]
    {
      items := items + [c];
      ok := true;
    }

    /** The child at `idx`, or none (a null `Ptr`) past the end. */
    method Get(idx: uint32) returns (r: Option<Container>)
      ensures idx as int < |items| ==> r == Some(items[idx])
      ensures idx as int >= |items| ==> r == None
    {
      if idx as int < |items| {
        r := Some(items[idx]);
      } else {
        r := None;
      }
    }

    /** The children's messages, in vector order; the message decodes to the tuple in the same order. */
    method GetDataContainerPbMsg() returns (m: DataContainer)
      ensures m == Encode(Value())
      ensures Decode(m) == Ok(Erase(Value()))
    {
      var elements: seq<DataContainer> := [];
      var i := 0;
      while i < |items|
        invariant 0 <= i <= |items|
        invariant |elements| == i
        invariant forall j :: 0 <= j < i ==> elements[j] == Encode(items[j])
      {
        elements := elements + [Encode(items[i])];
        i := i + 1;
      }
      m := DataContainer("", TupleData(elements));
      assert elements == Encode(Value()).data.elements;
      RoundTrip(Value());
    }

    /** `Tuple(c1, c2, ..)`: one separator between neighbours, none after the last. */
    method Print(ft: FloatText) returns (s: string)
      ensures s == Show(Value(), ft)
    {
      ghost var parts := ItemTexts(items, ft);
      var body := "";
      var i := 0;
      while i < |items|
        invariant 0 <= i <= |items| == |parts|
        invariant body == Written(parts, i, SEP)
      {
        var text := Show(items[i], ft);
        var sep := if i + 1 < |items| then SEP else "";
        WrittenStep(parts, i, SEP);
        body := body + text + sep;
        i := i + 1;
      }
      WrittenAll(parts, SEP);
      ShowTuple(items, ft);
      s := "Tuple(" + body + ")";
    }
  }

  // ---------------------------------------------------------------------
  // Dict
  // ---------------------------------------------------------------------

  class DictContainer {
    var entries: map<string, Container>

    function Value(): Container
      reads this
    {
      Dict(entries)
    }

    constructor ()
      ensures Value() == Dict(map[])
    {
      entries := map[];
    }

    /** `std::map::insert`: a new key is added; a key already present keeps its first value. */
    method Add(key: string, c: Container) returns (ok: bool)
      modifies this
      ensures ok && entries == Insert(old(entries), key, c)
    {
      if key !in entries {
        entries := entries[key := c];
      }
      ok := true;
    }

    /** The child under `key`, or none (a null `Ptr`) for a missing key. */
    method Get(key: string) returns (r: Option<Container>)
      ensures key in entries ==> r == Some(entries[key])
      ensures key !in entries ==> r == None
    {
      if key in entries {
        r := Some(entries[key]);
      } else {
        r := None;
      }
    }

    /**
     * One element per key, in ascending key order, named by its key; the
     * message decodes to the same keys and values.
     */
    method GetDataContainerPbMsg() returns (m: DataContainer)
      ensures m == Encode(Value())
      ensures Decode(m) == Ok(Erase(Value()))
    {
      var ks := SortedKeys(entries.Keys);
      ghost var want := Encode(Dict(entries)).data.elements;
      var elements: seq<DataContainer> := [];
      var i := 0;
      while i < |ks|
        invariant 0 <= i <= |ks| == |want|
        invariant elements == want[..i]
      {
        var sub := Encode(entries[ks[i]]);
        assert want[i] == Named(sub, ks[i]);
        elements := elements + [Named(sub, ks[i])];
        i := i + 1;
      }
      assert elements == want;
      m := DataContainer("", DictData(elements));
      RoundTrip(Dict(entries));
    }

    /** `Dict(k1=c1, k2=c2, ..)` in ascending key order, no separator after the last entry. */
    method Print(ft: FloatText) returns (s: string)
      ensures s == Show(Value(), ft)
    {
      var ks := SortedKeys(entries.Keys);
      ghost var parts := EntryTexts(entries, ks, ft);
      var body := "";
      var i := 0;
      while i < |ks|
        invariant 0 <= i <= |ks| == |parts|
        invariant body == Written(parts, i, SEP)
      {
        var text := EntryText(ks[i], Show(entries[ks[i]], ft));
        var sep := if i + 1 < |ks| then SEP else "";
        WrittenStep(parts, i, SEP);
        body := body + text + sep;
        i := i + 1;
      }
      WrittenAll(parts, SEP);
      ShowDict(entries, ft);
      s := "Dict(" + body + ")";
    }
  }
}
