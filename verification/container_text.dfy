/**
 * The text `Print` writes for a container: a discrete value as its
 * number, a box as `[e1, e2, ..]`, a tuple as `Tuple(c1, c2, ..)`, a dict
 * as `Dict(k1=c1, k2=c2, ..)` in key order. Elements are separated by
 * `", "` with no separator after the last one.
 */
module ContainerText {
  import opened Scalars
  import opened Text
  import opened Container

  /**
   * `std::to_string` of the two floating-point types. Its digits are not
   * part of this model, so the printer is given them.
   */
  datatype FloatText = FloatText(single: Float32 -> string, double: Float64 -> string)

  const SEP: string := ", "

  /** `std::to_string` of one box element. */
  function ElemText(e: Elem, ft: FloatText): (s: string)
    ensures e.I32? ==> |s| >= 1 && (s[0] == '-' <==> e.i < 0)
    ensures e.I32? && e.i >= 0 ==> s == Decimal(e.i as nat)
    ensures e.I32? && e.i < 0 ==> s == "-" + Decimal(-(e.i as int))
    ensures e.U32? ==> s == Decimal(e.u as nat)
  {
    match e
    case I32(i) => IntText(i as int)
    case U32(u) => Decimal(u as nat)
    case F32(f) => ft.single(f)
    case F64(d) => ft.double(d)
  }

  /** The text of each element of a box, in storage order. */
  function ElemTexts(vs: BoxValues, ft: FloatText): (ts: seq<string>)
    ensures |ts| == Count(vs)
    ensures forall i :: 0 <= i < Count(vs) ==> ts[i] == ElemText(At(vs, i), ft)
  {
    seq(Count(vs), i requires 0 <= i < Count(vs) => ElemText(At(vs, i), ft))
  }

  /** One dict entry as `Print` writes it. */
  function EntryText(key: string, value: string): string
  {
    key + "=" + value
  }

  /** The text of a container. */
  function Show(c: Container, ft: FloatText): string
    decreases c
  {
    match c
    case Discrete(_, v) => Decimal(v as nat)
    case Box(_, vs) => "[" + Join(ElemTexts(vs, ft), SEP) + "]"
    case Tuple(items) =>
      "Tuple(" + Join(seq(|items|, i requires 0 <= i < |items| => Show(items[i], ft)), SEP) + ")"
    case Dict(entries) =>
      var ks := SortedKeys(entries.Keys);
      "Dict(" + Join(seq(|ks|, i requires 0 <= i < |ks| => EntryText(ks[i], Show(entries[ks[i]], ft))), SEP) + ")"
  }

  /** The part texts of a tuple's children, in order. */
  function ItemTexts(items: seq<Container>, ft: FloatText): (ts: seq<string>)
    ensures |ts| == |items| && forall i :: 0 <= i < |items| ==> ts[i] == Show(items[i], ft)
  {
    seq(|items|, i requires 0 <= i < |items| => Show(items[i], ft))
  }

  /** The part texts of a dict's entries, in ascending key order. */
  function EntryTexts(entries: map<string, Container>, ks: seq<string>, ft: FloatText): (ts: seq<string>)
    requires forall k :: k in ks ==> k in entries
    ensures |ts| == |ks| && forall i :: 0 <= i < |ks| ==> ts[i] == EntryText(ks[i], Show(entries[ks[i]], ft))
  {
    seq(|ks|, i requires 0 <= i < |ks| => EntryText(ks[i], Show(entries[ks[i]], ft)))
  }

  /** A tuple's text from its children's texts. */
  lemma ShowTuple(items: seq<Container>, ft: FloatText)
    ensures Show(Tuple(items), ft) == "Tuple(" + Join(ItemTexts(items, ft), SEP) + ")"
  {
  }

  /** A dict's text from its entries' texts, in ascending key order. */
  lemma ShowDict(entries: map<string, Container>, ft: FloatText)
    ensures Show(Dict(entries), ft) == "Dict(" + Join(EntryTexts(entries, SortedKeys(entries.Keys), ft), SEP) + ")"
  {
  }

  // ---------------------------------------------------------------------
  // Properties of the text
  // ---------------------------------------------------------------------

  /** A discrete container prints as the decimal digits of its value, and those digits read back as it. */
  lemma DiscreteTextReadsBack(n: uint32, v: uint32, ft: FloatText)
    ensures var s := Show(Discrete(n, v), ft);
      && (forall i :: 0 <= i < |s| ==> IsDigit(s[i]))
      && DigitsValue(s) == v as nat
  {
    DecimalValue(v as nat);
  }

  /**
   * The text of a non-empty box: between the brackets, the element texts
   * and exactly one separator between neighbours, none after the last.
   */
  lemma BoxTextLength(shape: seq<uint32>, vs: BoxValues, ft: FloatText)
    requires Count(vs) >= 1
    ensures |Show(Box(shape, vs), ft)| == 2 + TotalLength(ElemTexts(vs, ft)) + 2 * (Count(vs) - 1)
  {
    JoinLength(ElemTexts(vs, ft), SEP);
  }

  /** Tuple text read from the front: the first child's text follows `Tuple(` directly. */
  lemma TupleTextFront(first: Container, rest: seq<Container>, ft: FloatText)
    requires |rest| >= 1
    ensures Show(Tuple([first] + rest), ft) == "Tuple(" + Show(first, ft) + SEP + Join(ItemTexts(rest, ft), SEP) + ")"
  {
    var items := [first] + rest;
    ShowTuple(items, ft);
    ItemTextsCons(first, rest, ft);
    JoinCons(Show(first, ft), ItemTexts(rest, ft), SEP);
    Regroup("Tuple(", Show(first, ft), SEP, Join(ItemTexts(rest, ft), SEP), ")");
  }

  lemma ItemTextsCons(first: Container, rest: seq<Container>, ft: FloatText)
    ensures ItemTexts([first] + rest, ft) == [Show(first, ft)] + ItemTexts(rest, ft)
  {
  }

  /** The last child's text is followed directly by `)`: no trailing separator. */
  lemma TupleTextBack(items: seq<Container>, last: Container, ft: FloatText)
    requires |items| >= 1
    ensures Show(Tuple(items + [last]), ft) == "Tuple(" + Join(ItemTexts(items, ft), SEP) + SEP + Show(last, ft) + ")"
  {
    var all := items + [last];
    ShowTuple(all, ft);
    ItemTextsSnoc(items, last, ft);
    Regroup("Tuple(", Join(ItemTexts(items, ft), SEP), SEP, Show(last, ft), ")");
  }

  lemma ItemTextsSnoc(items: seq<Container>, last: Container, ft: FloatText)
    requires |items| >= 1
    ensures Join(ItemTexts(items + [last], ft), SEP) == Join(ItemTexts(items, ft), SEP) + SEP + Show(last, ft)
  {
    var parts := ItemTexts(items + [last], ft);
    assert parts[..|parts| - 1] == ItemTexts(items, ft);
  }

  /** An erased container prints like the original: `Print` shows neither shapes nor bounds. */
  lemma {:induction false} ShowIgnoresMetadata(c: Container, ft: FloatText)
    ensures Show(Erase(c), ft) == Show(c, ft)
    decreases c
  {
    match c
    case Discrete(_, _) =>
    case Box(_, _) =>
    case Tuple(items) =>
      forall i | 0 <= i < |items| ensures Show(Erase(items[i]), ft) == Show(items[i], ft) {
        ShowIgnoresMetadata(items[i], ft);
      }
      assert ItemTexts(Erase(c).items, ft) == ItemTexts(items, ft);
    case Dict(entries) =>
      forall k | k in entries ensures Show(Erase(entries[k]), ft) == Show(entries[k], ft) {
        ShowIgnoresMetadata(entries[k], ft);
      }
      var erased := Erase(c).entries;
      assert erased.Keys == entries.Keys;
      var ks := SortedKeys(entries.Keys);
      assert EntryTexts(erased, ks, ft) == EntryTexts(entries, ks, ft);
  }

  /** The container the receiver decodes prints exactly as the sender's container did. */
  lemma DecodedPrintsAlike(c: Container, ft: FloatText)
    ensures Decode(Encode(c)).Ok? && Show(Decode(Encode(c)).value, ft) == Show(c, ft)
  {
    RoundTrip(c);
    ShowIgnoresMetadata(c, ft);
  }

  /** A dict prints its entries in ascending key order, whatever order they were added in. */
  lemma DictPrintsInKeyOrder(ft: FloatText)
    ensures Show(Dict(map["obs2" := Discrete(0, 2), "obs1" := Discrete(0, 1)]), ft) == "Dict(obs1=1, obs2=2)"
  {
    var entries := map["obs2" := Discrete(0, 2), "obs1" := Discrete(0, 1)];
    ObsKeysSorted(entries.Keys);
    ShowDict(entries, ft);
    ObsEntryTexts(entries, ft);
    ObsJoined();
  }

  lemma ObsEntryTexts(entries: map<string, Container>, ft: FloatText)
    requires entries == map["obs2" := Discrete(0, 2), "obs1" := Discrete(0, 1)]
    ensures EntryTexts(entries, ["obs1", "obs2"], ft) == ["obs1=1", "obs2=2"]
  {
    var parts := EntryTexts(entries, ["obs1", "obs2"], ft);
    assert parts[0] == "obs1=1" by {
      assert Show(entries["obs1"], ft) == Decimal(1) == "1";
    }
    assert parts[1] == "obs2=2" by {
      assert Show(entries["obs2"], ft) == Decimal(2) == "2";
    }
  }

  lemma ObsJoined()
    ensures "Dict(" + Join(["obs1=1", "obs2=2"], SEP) + ")" == "Dict(obs1=1, obs2=2)"
  {
    var parts := ["obs1=1", "obs2=2"];
    assert parts[..1] == ["obs1=1"];
  }

  lemma ObsKeysSorted(keys: set<string>)
    requires keys == {"obs1", "obs2"}
    ensures SortedKeys(keys) == ["obs1", "obs2"]
  {
    assert StrLess("obs1", "obs2") by {
      assert StrLess("1", "2");
      StrLessCommonPrefix("obs", "1", "2");
      assert "obs" + "1" == "obs1" && "obs" + "2" == "obs2";
    }
    assert InOrder(["obs1", "obs2"], 0, 1);
    SortedKeysIs(keys, ["obs1", "obs2"]);
  }
}
