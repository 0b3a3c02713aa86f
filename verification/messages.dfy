/**
 * The message tree the two processes exchange (the `ns3penv` protobuf
 * messages), as datatypes. A repeated field is a `seq`, a `oneof` a
 * datatype with one constructor per case plus one for "no case set", an
 * optional sub-message an `Option`. Wire bytes are not modelled.
 */
module Messages {
  import opened Wrappers
  import opened Scalars

  /** The `Dtype` enum; an enum field may also carry a number outside the four names. */
  datatype Dtype = INT | UINT | FLOAT | DOUBLE | UnrecognisedDtype(code: int)

  predicate KnownDtype(d: Dtype) { !d.UnrecognisedDtype? }

  /** `BoxDataContainer`: one data field per element type; only the one matching `dtype` is used. */
  datatype BoxDataContainer = BoxDataContainer(
    shape: seq<uint32>,
    dtype: Dtype,
    intData: seq<int32>,
    uintData: seq<uint32>,
    floatData: seq<Float32>,
    doubleData: seq<Float64>)

  /** The `data` oneof of `DataContainer`. */
  datatype DataCase =
    | NoData
    | DiscreteData(data: uint32)
    | BoxData(box: BoxDataContainer)
    | TupleData(elements: seq<DataContainer>)
    | DictData(elements: seq<DataContainer>)

  /** `DataContainer`: a `name` (used for dict elements) and the `data` oneof. */
  datatype DataContainer = DataContainer(name: string, data: DataCase)

  /** A message with every field at its default, as a parser yields for absent content. */
  const EMPTY_DATA_CONTAINER: DataContainer := DataContainer("", NoData)

  /** `SpaceDescription`, as the controller reads it (the box bounds are not modelled). */
  datatype SpaceCase =
    | NoSpace
    | DiscreteSpace(n: uint32)
    | BoxSpace(shape: seq<uint32>, dtype: Dtype)
    | TupleSpace(elements: seq<SpaceDescription>)
    | DictSpace(elements: seq<SpaceDescription>)

  datatype SpaceDescription = SpaceDescription(name: string, space: SpaceCase)

  const EMPTY_SPACE_DESCRIPTION: SpaceDescription := SpaceDescription("", NoSpace)

  /** `SimInitMsg`: the two optional space descriptions. */
  datatype SimInitMsg = SimInitMsg(obsSpace: Option<SpaceDescription>, actSpace: Option<SpaceDescription>)

  /** `SimInitAck` */
  datatype SimInitAck = SimInitAck(done: bool, stopSimReq: bool)

  /** `EnvStateMsg::Reason` */
  datatype Reason = SimulationEnd | GameOver

  /** `EnvStateMsg`; `reason` is `None` when it was never set. */
  datatype EnvStateMsg = EnvStateMsg(
    obsData: Option<DataContainer>,
    reward: Float32,
    isGameOver: bool,
    reason: Option<Reason>,
    info: string)

  /** `EnvActMsg` */
  datatype EnvActMsg = EnvActMsg(actData: Option<DataContainer>, stopSimReq: bool)

  /** A frame the simulator puts in the `cpp2py` buffer. */
  datatype SimFrame = InitFrame(init: SimInitMsg) | StateFrame(state: EnvStateMsg)

  /** A frame the controller puts in the `py2cpp` buffer. */
  datatype CtrlFrame = AckFrame(ack: SimInitAck) | ActFrame(act: EnvActMsg)

  /*
   * A receiver parses whatever bytes are in the buffer as the message type it
   * expects. For a frame of the other kind the model gives the message with
   * every field at its default.
   */

  function AckOf(f: CtrlFrame): (a: SimInitAck)
    ensures f.AckFrame? ==> a == f.ack
    ensures f.ActFrame? ==> !a.done && !a.stopSimReq
  {
    if f.AckFrame? then f.ack else SimInitAck(false, false)
  }

  function ActOf(f: CtrlFrame): (a: EnvActMsg)
    ensures f.ActFrame? ==> a == f.act
    ensures f.AckFrame? ==> a.actData.None? && !a.stopSimReq
  {
    if f.ActFrame? then f.act else EnvActMsg(None, false)
  }

  function InitOf(f: SimFrame): (m: SimInitMsg)
    ensures f.InitFrame? ==> m == f.init
    ensures f.StateFrame? ==> m.obsSpace.None? && m.actSpace.None?
  {
    if f.InitFrame? then f.init else SimInitMsg(None, None)
  }

  function StateOf(f: SimFrame): (m: EnvStateMsg)
    ensures f.StateFrame? ==> m == f.state
    ensures f.InitFrame? ==> m.obsData.None? && !m.isGameOver && m.info == ""
  {
    if f.StateFrame? then f.state else EnvStateMsg(None, FLOAT32_ZERO, false, None, "")
  }

  /** Reading an optional sub-message: an absent one reads as the empty message. */
  function DataOrEmpty(m: Option<DataContainer>): (d: DataContainer)
    ensures m.None? ==> d.data.NoData?
    ensures m.Some? ==> d == m.value
  {
    m.GetOr(EMPTY_DATA_CONTAINER)
  }

  function SpaceOrEmpty(m: Option<SpaceDescription>): (d: SpaceDescription)
    ensures m.None? ==> d.space.NoSpace?
    ensures m.Some? ==> d == m.value
  {
    m.GetOr(EMPTY_SPACE_DESCRIPTION)
  }
}
