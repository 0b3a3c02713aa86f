# ns3penv: containers, the simulator session and the controller, in Dafny

ns3penv connects an ns-3 simulation to a Python gymnasium environment. The two
processes share a channel. Over it they exchange protobuf messages, in strict
turns:

- the simulator sends an init message describing the observation space and the
  action space; the controller acknowledges it;
- then, once per step, the simulator sends an environment state and the
  controller replies with an action or with a stop request.

This project models three parts of the system:

- **The data container** (`model/container.h`, `model/container.cc`). This is
  the value tree that observations and actions travel in. It has four kinds of
  node:
  - a discrete value;
  - a box, which is a flat vector of `int32`, `uint32`, `float` or `double`
    with a shape;
  - a tuple;
  - a dict.

  The project models the tree's encoding into the `DataContainer` message, the
  decoder `CreateFromDataContainerPbMsg`, the text `Print` writes, and the four
  container classes with their setters and getters.
  - Module `Container` holds the value, the encoder and the decoder.
  - Module `ContainerText` holds the printed text.
  - Module `ContainerObjects` holds the classes.
  - Module `Text` gives the ordering and printing facts they share:
    - `std::string` comparison and `std::map` key order;
    - `std::to_string` of integers;
    - `", "`-separated lists.
  - Module `Messages` gives the protobuf messages as datatypes.
  - Module `Scalars` gives the fixed-width integers and the floating-point
    values. Floating-point values are held as opaque bit patterns.
- **The simulator side of the session** (`model/ns3penv-gym-interface.cc`,
  module `GymInterface`). `Init` sends the init message once and reads the
  acknowledgement. `NotifyCurrentState` builds the state message from the
  callbacks, sends it, reads the reply, and then stops the process or decodes
  the action and hands it to the action callback. `NotifySimulationEnd` flushes
  one last state.
  - The session is a value (`Session`) with one function per operation.
  - The class `OpenGymInterface` carries the same fields and updates them in
    place. Each method is proved to match its function.
  - The shared channel is an ordered trace: what was sent and received, and the
    replies the peer will write. `std::exit` is the phase `Exited`. The
    decoder's `NS_ABORT` is `Aborted`. A receive with no reply to come waits
    forever and is the phase `Blocked`.
- **The controller** (`python/src/ns3env/ns3env.py`, module `Controller`). It
  covers:
  - building gymnasium spaces from space descriptions (`_create_space`);
  - building observations from data messages (`_create_data`);
  - packing actions into messages (`_pack_data`);
  - the environment's flags and its calls `initialize_env`,
    `send_close_command`, `rx_env_state`, `send_actions`, `step`, `__init__`
    and `reset`.

  Each call is a function from the environment's fields to new fields and a
  `Status`: it returns, it raises a Python exception, or it waits forever in a
  receive. The class `Ns3Env` carries the fields and runs the same steps in
  place.

- **Both sides on one channel** (module `Lockstep`). The channel is in order
  and loses nothing, so each side has read a prefix of what the other wrote.
  Given that, the simulator's log and the controller's log agree frame by
  frame, their counts stay within one, and every reply answers its frame in
  kind: the init message with the acknowledgement, every state with an action
  message.

The controller has four defects (see "## Findings"). The affected functions
take a `Version`:
- `AsWritten` is the code as it stands. Lemmas exhibit each defect on it.
- `Corrected` is the evidently intended code. The round-trip properties are
  proved on it.

`Ns3Env` runs whichever version it is constructed with.

Two behaviours of the code are worth stating up front:
- **Adding an existing dict key keeps the first value.**
  `OpenGymDictContainer::Add` uses `std::map::insert`, which leaves an entry
  already present unchanged (`model/container.cc:539`). The decoder therefore
  keeps the first of two elements with the same name
  (`Container.DuplicateNameFirstWins`).
- **A box's shape is lost on a round trip.** The decoder never reads the
  shape field and builds every box with an empty shape
  (`model/container.cc:79-117`). The round trip therefore restores everything
  except box shapes and discrete bounds (`Container.RoundTrip`,
  `Container.FloatBoxLosesShape`).

## Model

| member | source | states |
|---|---|---|
| `Container.DtypeForTypeName` | model/container.cc:257-282 | `SetDtype`. The tag is INT exactly for the four signed names and UINT exactly for the four unsigned names. It is FLOAT exactly for `float` and DOUBLE exactly for `double`. Every other name aborts. |
| `Container.InstantiatedDtypesMatchStorage` | model/container.cc:580-584 | Each of the four instantiated box types gets the tag that names the element type it stores. |
| `Container.Append` | model/container.cc:335-341 | `push_back` keeps the element type and adds exactly one element, at the end. Every earlier element is unchanged. |
| `Container.Insert` | model/container.cc:535-541 | `std::map::insert` adds the key. A key already present keeps its old value. Every other entry is unchanged. |
| `Container.DictElements` | model/container.cc:518-533 | An encoded dict has one element per key, named by that key, in ascending key order. Each element's payload is the encoding of that key's value. |
| `Container.InsertAllKeys` | model/container.cc:143-148 | Adding the decoded elements of a dict one by one gives exactly the old keys plus the element names. |
| `Container.InsertAllKeepsPresent` | model/container.cc:143-148 | A key already in the dict keeps its value through every later `Add`. |
| `Container.InsertAllFirstWins` | model/container.cc:143-148 | A name that occurs several times among a dict's elements keeps the value of its first occurrence. |
| `Container.DecodeIgnoresName` | model/container.cc:143-147 | A dict element's name plays no part in what its payload decodes to. |
| `Container.RoundTrip` | model/container.cc:64-158 | Decoding the encoding of any container succeeds. It gives the container back with box shapes and discrete bounds dropped. Variant, values, element type, tuple order and dict keys all survive. |
| `Container.RoundTripTuple` | model/container.cc:119-134 | The tuple case of the round trip: the children come back in the same order. |
| `Container.RoundTripDict` | model/container.cc:136-151 | The dict case of the round trip: every key comes back with its own value. |
| `Container.DictDecodesInKeyOrder` | model/container.cc:136-151 | An encoded dict decodes to its values added in ascending key order. |
| `Container.DecodeDict` | model/container.cc:136-151 | A dict message whose elements all decode gives the elements added in message order under their names. |
| `Container.ExactRoundTrip` | model/container.cc:64-158 | The round trip is exact for a container with no box shape and no discrete bound. |
| `Container.DecodedIsBare` | model/container.cc:71-117 | Every container the decoder builds has empty box shapes and zero discrete bounds. |
| `Container.DecodeSucceedsIff` | model/container.cc:64-158 | The decoder aborts exactly when some node has no case set (line 153) or some box has an unknown dtype (line 112). |
| `Container.EncodedIsDecodable` | model/container.cc:296-333 | No encoding of a container makes the decoder abort. |
| `Container.DiscreteSevenRoundTrips` | model/container.cc:71-77 | The discrete value 7 comes back as 7. |
| `Container.FloatBoxLosesShape` | model/container.cc:98-104 | A float box of shape `[2, 2]` comes back with its four values in order and with an empty shape, so not as it was sent. |
| `Container.TupleKeepsOrder` | model/container.cc:119-134 | A tuple of the discrete value 3 and an int box `[42]` comes back in the same order. |
| `Container.DictKeysRetrievable` | model/container.cc:136-151 | A decoded dict with keys `obs1` and `obs2` has exactly those keys, each with its own value. |
| `Container.DuplicateNameFirstWins` | model/container.cc:143-148 | Two dict elements with the same name decode to one entry holding the first element's value. |
| `Text.SortedKeys` | model/container.h:236 | The iteration order of the `std::map` visits each key exactly once, in ascending `std::string` order. |
| `Text.SortedKeysIs` | model/container.h:236 | That order is unique: any ascending sequence of exactly the keys is it. |
| `Text.DecimalValue` | model/container.cc:221-225 | `std::to_string` of an unsigned value gives decimal digits that read back as the value. |
| `Text.IntText` | model/container.cc:384 | `std::to_string` of a signed value starts with `-` exactly when the value is negative. For a non-negative value it is the decimal digits. For a negative value it is `-` followed by the digits of its magnitude. |
| `Text.DecimalInjective` | model/ns3penv-gym-interface.cc:55-57 | Two different ids never have the same decimal text. |
| `ContainerText.ElemText` | model/container.cc:384 | One box element is printed by `std::to_string`. A signed element's text starts with `-` exactly when the element is negative. It is the decimal digits of a non-negative element, and `-` followed by the digits of the magnitude for a negative one. An unsigned element's text is its decimal digits. |
| `ContainerText.DiscreteTextReadsBack` | model/container.cc:221-225 | A discrete container prints as decimal digits only, and they read back as its value. |
| `ContainerText.BoxTextLength` | model/container.cc:377-393 | A non-empty box's text has length: the two brackets, plus the element texts, plus exactly one `", "` between neighbours. |
| `ContainerText.TupleTextFront` | model/container.cc:464-484 | The first child's text directly follows `Tuple(`, and one separator follows it. |
| `ContainerText.TupleTextBack` | model/container.cc:464-484 | The last child's text is directly followed by `)`, with no separator after it. |
| `ContainerText.ShowIgnoresMetadata` | model/container.cc:377-393 | Printing shows neither box shapes nor discrete bounds: a container prints like its erased form. |
| `ContainerText.DecodedPrintsAlike` | model/container.cc:64-158 | The container the receiver decodes prints exactly as the sender's container does. |
| `ContainerText.DictPrintsInKeyOrder` | model/container.cc:555-578 | A dict with `obs2` and `obs1` prints as `Dict(obs1=1, obs2=2)`: key order, not insertion order. |
| `ContainerObjects.DiscreteContainer.constructor` | model/container.cc:170-174 | The default constructor sets the bound to 0. |
| `ContainerObjects.DiscreteContainer.WithBound` | model/container.cc:176-180 | The bound is the one given. |
| `ContainerObjects.DiscreteContainer.SetValue` | model/container.cc:208-213 | Any value is stored, whatever the bound, and the call reports success. The bound is unchanged. |
| `ContainerObjects.DiscreteContainer.GetValue` | model/container.cc:215-219 | Returns the stored value. |
| `ContainerObjects.DiscreteContainer.GetDataContainerPbMsg` | model/container.cc:199-206 | The message is the encoding of the container. It carries the value, and it decodes to the value with the bound dropped. |
| `ContainerObjects.DiscreteContainer.Print` | model/container.cc:221-225 | The text is the container's text, and its digits read back as the value. |
| `ContainerObjects.BoxContainer.constructor` | model/container.cc:239-243 | An empty shape and no data, with the tag of the element type. The object's invariant holds: the tag matches the storage. |
| `ContainerObjects.BoxContainer.WithShape` | model/container.cc:245-250 | As the default constructor, but with the given shape. |
| `ContainerObjects.BoxContainer.AddValue` | model/container.cc:335-341 | The data gains one element at the end and the shape is unchanged. The invariant is kept and success is reported. |
| `ContainerObjects.BoxContainer.GetValue` | model/container.cc:343-353 | Returns the element at the index, or zero of the element type when the index is past the end. |
| `ContainerObjects.BoxContainer.SetData` | model/container.cc:355-361 | The data is replaced whole and the shape is unchanged. |
| `ContainerObjects.BoxContainer.GetData` | model/container.cc:370-375 | Returns the data, of the tagged element type. |
| `ContainerObjects.BoxContainer.GetShape` | model/container.cc:363-368 | Returns the shape. |
| `ContainerObjects.BoxContainer.GetDataContainerPbMsg` | model/container.cc:296-333 | The message holds the shape, the tag, and the data in the one field the tag selects. It decodes to the same data with an empty shape. |
| `ContainerObjects.BoxContainer.Print` | model/container.cc:377-393 | The loop writes `[`, then the element texts separated by `", "` with none after the last, then `]`. |
| `ContainerObjects.TupleContainer.constructor` | model/container.cc:405-408 | A new tuple is empty. |
| `ContainerObjects.TupleContainer.Add` | model/container.cc:443-449 | The child goes last and the children before it are unchanged. Success is reported. |
| `ContainerObjects.TupleContainer.Get` | model/container.cc:451-462 | Returns the child at the index, or null past the end. |
| `ContainerObjects.TupleContainer.GetDataContainerPbMsg` | model/container.cc:427-441 | The loop emits the children's messages in order. The message is the tuple's encoding and decodes back to the tuple, erased. |
| `ContainerObjects.TupleContainer.Print` | model/container.cc:464-484 | The loop writes `Tuple(`, the children's texts separated by `", "` with none after the last, then `)`. |
| `ContainerObjects.DictContainer.constructor` | model/container.cc:496-499 | A new dict is empty. |
| `ContainerObjects.DictContainer.Add` | model/container.cc:535-541 | Insert semantics: a new key is added; a present key keeps its first value. |
| `ContainerObjects.DictContainer.Get` | model/container.cc:543-553 | Returns the value under the key, or null for a missing key. |
| `ContainerObjects.DictContainer.GetDataContainerPbMsg` | model/container.cc:518-533 | The loop emits one element per key, in ascending key order, each named by its key. The message is the dict's encoding and decodes back to the same keys and values. |
| `ContainerObjects.DictContainer.Print` | model/container.cc:555-578 | The loop writes `Dict(`, then `key=text` per entry in key order, separated by `", "` with none after the last, then `)`. |
| `GymInterface.NamesDistinct` | model/ns3penv-gym-interface.cc:55-57 | The four channel names of one environment are pairwise different. |
| `GymInterface.NamesDisjoint` | model/ns3penv-gym-interface.cc:55-57 | Two different environment ids share no channel name. |
| `GymInterface.GetReward` | model/ns3penv-gym-interface.cc:241-248 | The reward is 0.0 without a callback and otherwise the callback's value. |
| `GymInterface.IsGameOver` | model/ns3penv-gym-interface.cc:250-257 | Game over holds exactly when the callback says so or the simulation has ended. |
| `GymInterface.GetExtraInfo` | model/ns3penv-gym-interface.cc:259-266 | The extra info is empty without a callback and otherwise the callback's text. |
| `GymInterface.ExecuteActions` | model/ns3penv-gym-interface.cc:268-275 | The reply is true exactly when a callback is set and returns true. |
| `GymInterface.InitMessage` | model/ns3penv-gym-interface.cc:78-91 | Each space field of the init message is set exactly when its callback gives a space. |
| `GymInterface.StateMessage` | model/ns3penv-gym-interface.cc:131-156 | The state message has: the observation's encoding exactly when there is an observation; the reward and info of the getters; game over per `IsGameOver`; a reason exactly when game over, `SimulationEnd` after the simulation end and `GameOver` otherwise. |
| `GymInterface.ReasonScenarios` | model/ns3penv-gym-interface.cc:146-154 | A game-over callback yields `GameOver` before the simulation end and `SimulationEnd` after it. After the end, `SimulationEnd` is reported even with no callback. |
| `GymInterface.FreshConsistent` | model/ns3penv-gym-interface.cc:51-53 | A new interface satisfies the session invariant. The invariant says: sends and receives alternate; an odd trace only while waiting; the init frame first and never again; the stop flag exactly when exited. |
| `GymInterface.ExchangeKeeps` | model/ns3penv-gym-interface.cc:162-177 | One send then one receive extends the trace by the frame and the reply, or by the frame alone while waiting. Alternation is kept. |
| `GymInterface.InitKeeps` | model/ns3penv-gym-interface.cc:71-122 | `Init` keeps the session invariant. |
| `GymInterface.NotifyKeeps` | model/ns3penv-gym-interface.cc:124-198 | `NotifyCurrentState` keeps the session invariant. |
| `GymInterface.HandleActionKeeps` | model/ns3penv-gym-interface.cc:184-197 | Handling the reply (stop, abort or execute) keeps the invariant and leaves the trace and the pending replies alone. |
| `GymInterface.SimulationEndKeeps` | model/ns3penv-gym-interface.cc:206-212 | `NotifySimulationEnd` keeps the session invariant. |
| `GymInterface.InitIdempotent` | model/ns3penv-gym-interface.cc:72-76 | A second `Init` changes nothing, whatever the callbacks return. |
| `GymInterface.InitFramesCounted` | model/ns3penv-gym-interface.cc:72-76 | In a consistent session exactly one init frame has been sent once the flag is set, and none before. |
| `GymInterface.InitTwiceSendsOne` | model/ns3penv-gym-interface.cc:72-76 | `Init` called twice on a new interface puts exactly one init frame on the wire. |
| `GymInterface.HandshakeOutcome` | model/ns3penv-gym-interface.cc:97-121 | The handshake of a new interface sends the init frame and receives the acknowledgement. It waits forever exactly when no acknowledgement comes. It exits exactly when the acknowledgement asks to stop. |
| `GymInterface.NotifyExchanges` | model/ns3penv-gym-interface.cc:162-177 | After the handshake a notification appends exactly one state frame and then exactly one reply, or waits. |
| `GymInterface.SimEndIgnoresReply` | model/ns3penv-gym-interface.cc:179-182 | After the simulation end the reply is consumed. Neither its stop flag nor its action is used. |
| `GymInterface.StopReplyExits` | model/ns3penv-gym-interface.cc:184-191 | A stop flag in the reply to a state frame ends the process, and no action is executed. |
| `GymInterface.ActionDelivered` | model/ns3penv-gym-interface.cc:193-197 | An encoded action without the stop flag is decoded and handed to the action callback, erased. |
| `GymInterface.SimulationEndFlush` | model/ns3penv-gym-interface.cc:206-212 | The simulation end sets the flag. It flushes one last state, game over with reason `SimulationEnd`, only when the handshake was done. Otherwise it sends nothing. |
| `GymInterface.RunKeeps` | model/ns3penv-gym-interface.cc:71-212 | Any sequence of `Init`, `NotifyCurrentState` and `NotifySimulationEnd` calls keeps the session invariant. |
| `GymInterface.StoppedStaysSilent` | model/ns3penv-gym-interface.cc:184-191 | Once the process has exited, aborted or blocked, no later call changes anything. |
| `GymInterface.RunBalanced` | model/ns3penv-gym-interface.cc:162-177 | After any sequence of calls on a new interface, sends equal receives, or exceed them by one while waiting. |
| `GymInterface.OpenGymInterface.constructor` | model/ns3penv-gym-interface.cc:51-61 | The three flags start false and the channel is named after the id. |
| `GymInterface.OpenGymInterface.CppSend` | model/ns3penv-gym-interface.cc:97-103 | The frame is appended to the trace. |
| `GymInterface.OpenGymInterface.CppRecv` | model/ns3penv-gym-interface.cc:105-110 | The peer's next reply is taken and logged, or the call waits forever. |
| `GymInterface.OpenGymInterface.Init` | model/ns3penv-gym-interface.cc:71-122 | The new fields are those of the `Init` specification. |
| `GymInterface.OpenGymInterface.NotifyCurrentState` | model/ns3penv-gym-interface.cc:124-198 | The new fields are those of the `NotifyCurrentState` specification. |
| `GymInterface.OpenGymInterface.WaitForStop` | model/ns3penv-gym-interface.cc:200-204 | Exactly one notification. |
| `GymInterface.OpenGymInterface.NotifySimulationEnd` | model/ns3penv-gym-interface.cc:206-212 | The new fields are those of the simulation-end specification. |
| `Controller.ArrayOf` | python/src/ns3env/ns3env.py:76-84 | `np.array` of a repeated field is one-dimensional and holds the field's elements in order. |
| `Controller.PackCode` | python/src/ns3env/ns3env.py:194-234 | The signed integer names pack as INT and the unsigned ones as UINT. Any code chosen is a known dtype. |
| `Controller.StoreElem` | python/src/ns3env/ns3env.py:196-231 | An element goes into the field of the chosen code. An element of that type is stored unchanged. |
| `Controller.StoreAll` | python/src/ns3env/ns3env.py:196-231 | All elements are stored in order, in the field of the chosen code. When every element already has that type, all are stored unchanged. |
| `Controller.ShapeField` | python/src/ns3env/ns3env.py:199 | The array's shape goes into the `uint32` shape field unchanged. It raises `ValueError` exactly when a dimension does not fit. |
| `Controller.ObservationRoundTrip` | python/src/ns3env/ns3env.py:68-100 | Corrected, every encoded container is read back whole as its Python view: integers, one-dimensional arrays, tuples in order, dicts in key order. |
| `Controller.PackArray` | python/src/ns3env/ns3env.py:196-231 | The array is handed to the repeated field, which takes it row by row. An array of any rank but one raises `TypeError` once its shape is stored. A packed box carries the chosen code and the array's one dimension. |
| `Controller.PackFits` | python/src/ns3env/ns3env.py:183-268 | Corrected, an action that fits its space packs without an exception. Fitting means, for a box, a one-dimensional array of the space's element type. The simulator decodes the result into a container (`Container.Decode` returns `Ok`) without an abort, and the controller's decoder reads it back as the same action. |
| `Controller.FitsIsFlat` | python/src/ns3env/ns3env.py:196-231 | Every array in an action that fits is already one-dimensional with its length as its shape, so the controller's read-back loses nothing. |
| `Controller.PackFitsTuple` | python/src/ns3env/ns3env.py:235-247 | The tuple case of `PackFits`. |
| `Controller.PackFitsDict` | python/src/ns3env/ns3env.py:249-266 | The dict case of `PackFits`. |
| `Controller.PackedBox` | python/src/ns3env/ns3env.py:192-232 | A packed box came from a one-dimensional array. It carries the array's shape and the code of the space's element type. |
| `Controller.PackBoxErrors` | python/src/ns3env/ns3env.py:192-234 | An action that is not an array fails the assertion. An unknown element type raises `ValueError`. An array of any rank but one raises `TypeError`. |
| `Controller.MatrixActionRaises` | python/src/ns3env/ns3env.py:195-202 | A two-by-two `int32` array for a box of that shape raises `TypeError`, and does not fit. |
| `Controller.PackedDictNames` | python/src/ns3env/ns3env.py:249-266 | The elements of a packed dict are named by the action's keys, in the action's order. |
| `Controller.DiscreteSpaceNeedsValues` | python/src/ns3env/ns3env.py:28-29 | A discrete space of zero values fails gymnasium's assertion that the count is positive. Any other count gives a discrete space of that size. |
| `Controller.UnknownDtypeRaises` | python/src/ns3env/ns3env.py:36-86 | An unknown dtype raises `ValueError` both when building a space and when building an observation. |
| `Controller.BoxObservationIgnoresShape` | python/src/ns3env/ns3env.py:73-86 | A box observation is read from the field its dtype selects. The shape and the name play no part. |
| `Controller.DoubleSpaceSentBackAsFloat` | python/src/ns3env/ns3env.py:36-44 | As written, a DOUBLE box space becomes `float32`, and an action packed for it is tagged FLOAT. `float64` is packed as FLOAT too. |
| `Controller.DtypeRoundTrip` | python/src/ns3env/ns3env.py:36-44 | Corrected, every known dtype survives from the space description to the packed action. |
| `Controller.CompoundObservationRejected` | python/src/ns3env/ns3env.py:88-100 | As written, every tuple or dict observation raises `TypeError`. Corrected, it arrives whole. |
| `Controller.NestedTupleActionRejected` | python/src/ns3env/ns3env.py:235-247 | As written, an action for a tuple nested in the action space fails the assertion. Corrected, it packs. |
| `Controller.NestedDictActionRejected` | python/src/ns3env/ns3env.py:249-266 | As written, an action for a dict nested in the action space raises `KeyError`. Corrected, it packs. |
| `Controller.SendCloseCommandSpec` | python/src/ns3env/ns3env.py:128-144 | `send_close_command` returns whether a message interface is present. |
| `Controller.GetState` | python/src/ns3env/ns3env.py:289-296 | `get_state` never reports truncation. It reports the held observation, reward, game over and extra info. |
| `Controller.InitializeEnvExchange` | python/src/ns3env/ns3env.py:102-126 | Without a message interface nothing happens and the call returns false. With one, a successful call receives one frame and then sends the acknowledgement `done = true`, `stopSimReq = false`. |
| `Controller.SendsOnce` | python/src/ns3env/ns3env.py:270-287 | The close command and a successful `send_actions` each send one frame and clear `newStateRx`. The action frame is an action message without the stop flag. A packing error sends nothing and changes nothing. |
| `Controller.RxOnlyOnce` | python/src/ns3env/ns3env.py:146-148 | A state already held is not received again. |
| `Controller.RxReceivesOne` | python/src/ns3env/ns3env.py:146-169 | Otherwise exactly one state is received and held, with its game-over flag. The close command is sent after a game-over state. |
| `Controller.InfoReported` | python/src/ns3env/ns3env.py:165-167 | An empty info text is reported as `{}`, and any other text as itself. |
| `Controller.CleanResetIsQuiet` | python/src/ns3env/ns3env.py:362-364 | A reset of a clean environment returns the current observation and changes nothing. |
| `Controller.RelaunchSettings` | python/src/ns3env/ns3env.py:379 | As written, a reset launches the simulator without settings. Corrected, it launches it with the settings `__init__` was given. |
| `Controller.ResetLikeNew` | python/src/ns3env/ns3env.py:359-386 | A successful reset leaves the environment exactly as a new one constructed with the settings the reset launches with. |
| `Controller.ResetDropsSettings` | python/src/ns3env/ns3env.py:347-379 | As written, a successful reset leaves a new environment constructed without settings, whatever settings `__init__` was given. Its first frame is the one the simulator writes when launched with none. |
| `Controller.ResetKeepsSettings` | python/src/ns3env/ns3env.py:347-379 | Corrected, a successful reset leaves exactly what `__init__` with the same settings left, starting from the frame the simulator writes for those settings. |
| `Controller.ConstructFirstRead` | python/src/ns3env/ns3env.py:347-349 | A new environment that started has first read the frame the simulator writes first when launched with its settings. |
| `Controller.StartForgets` | python/src/ns3env/ns3env.py:371-383 | Starting a run overwrites every field the outcome depends on. Once it succeeds, the earlier fields make no difference. |
| `Controller.RxPairs` | python/src/ns3env/ns3env.py:146-169 | After the handshake, receiving a state keeps the controller paired with the simulator. Paired means: receives and sends alternate; the second frame was the acknowledgement and every later one an action message; it owes a reply exactly when it holds a state that is not a game over. |
| `Controller.ConstructPaired` | python/src/ns3env/ns3env.py:340-351 | A new environment that starts without an exception is paired. |
| `Controller.StepPaired` | python/src/ns3env/ns3env.py:353-357 | A step taken while a state that is not a game over is held keeps the pairing and marks the environment dirty. |
| `Controller.StepAfterGameOverUnpairs` | python/src/ns3env/ns3env.py:270-287 | A step taken after a game-over state, already answered with the close command, sends its action where the controller should read. The environment is then no longer paired. |
| `Controller.StepExchanges` | python/src/ns3env/ns3env.py:353-357 | Such a step sends one action without the stop flag and then receives one state. |
| `Controller.ResetPaired` | python/src/ns3env/ns3env.py:359-386 | A successful reset leaves a paired environment. |
| `Lockstep.SimViews` | model/ns3penv-gym-interface.cc:71-198 | In the simulator's alternating log the k-th frame written is at position 2k and the k-th reply read at 2k + 1. |
| `Lockstep.CtrlViews` | python/src/ns3env/ns3env.py:102-169 | In the controller's alternating log the k-th frame read is at position 2k and the k-th frame written at 2k + 1. |
| `Lockstep.SamePositions` | model/ns3penv-gym-interface.cc:71-212 | When each side has read a prefix of what the other wrote, every frame read sits at the same position in the writer's log. Replies read ≤ replies written ≤ states read ≤ states written ≤ replies read + 1. |
| `Lockstep.KindsMatch` | model/ns3penv-gym-interface.cc:71-212 | With the positions agreeing, every reply answers its frame in kind: the init message with the acknowledgement, every state with an action message. This holds on both sides' logs. |
| `Lockstep.InStep` | python/src/ns3env/ns3env.py:102-169 | A consistent simulator and a paired controller on one channel alternate together. Their counts stay within one frame, every frame read is the one written at that position, and every reply answers its frame in kind. |
| `Lockstep.RunInStep` | model/ns3penv-gym-interface.cc:71-212 | The same holds for every run of the simulator from a new interface, whatever calls it receives. |
| `Controller.Ns3Env.constructor` | python/src/ns3env/ns3env.py:298-351 | The new fields are those of `__init__`: a new run of the simulator launched with `ns3Settings`, the handshake and the first state. The field `started` records how `__init__` ended: returned, raised, or waiting forever. Only on `Done` does the caller hold a usable environment. |
| `Controller.Ns3Env.NewRun` | python/src/ns3env/ns3env.py:371-379 | Every per-run field goes back to its initial value, on a new channel. |
| `Controller.Ns3Env.Receive` | python/src/ns3env/ns3env.py:152-155 | The simulator's next frame is taken and logged, or the call waits forever. |
| `Controller.Ns3Env.Send` | python/src/ns3env/ns3env.py:119-124 | The frame is appended to the trace. |
| `Controller.Ns3Env.InitializeEnv` | python/src/ns3env/ns3env.py:102-126 | The new fields and the outcome are those of the `initialize_env` specification. |
| `Controller.Ns3Env.SendCloseCommand` | python/src/ns3env/ns3env.py:128-144 | The new fields and the outcome are those of the `send_close_command` specification. |
| `Controller.Ns3Env.RxEnvState` | python/src/ns3env/ns3env.py:146-169 | The new fields and the outcome are those of the `rx_env_state` specification. |
| `Controller.Ns3Env.SendActions` | python/src/ns3env/ns3env.py:270-287 | The new fields and the outcome are those of the `send_actions` specification. |
| `Controller.Ns3Env.Step` | python/src/ns3env/ns3env.py:353-357 | The new fields and the outcome are those of the `step` specification. |
| `Controller.Ns3Env.Start` | python/src/ns3env/ns3env.py:379-383 | The new fields and the outcome are those of the handshake and first receive. |
| `Controller.Ns3Env.Reset` | python/src/ns3env/ns3env.py:359-386 | The new fields and the outcome are those of the `reset` specification, with the settings and the simulator the environment was constructed with. |

## Left out

- Shared children of tuples and dicts: the source holds children by reference-counted `Ptr` handle; the model holds them as values, so aliasing between containers is not captured.
- ContainerObjects.DiscreteContainer.constructor: takes the initial value as a parameter, because the source's default constructor leaves `m_value` uninitialised.
- Decimal digits of floating-point values: `std::to_string` of `float` and `double` is a parameter of the printer (`FloatText`), since floating-point formatting is not modelled.
- Wire bytes: protobuf serialisation, parsing, and the message-size asserts against the buffer size are left out; messages are exchanged as values.
- The shared-memory transport, its semaphores, and `Ns3penvMsgInterface`, plus `Simulator::Stop`/`Destroy` (the process exit is the phase `Exited`).
- The singleton accessors `Get`/`DoGet`, `Notify`, the callback setters and `GetTypeId`: the callbacks' results are a parameter of each call (`Callbacks`).
- The space classes and their `GetSpaceDescription`: space descriptions are taken as values.
- Box `low`/`high` bounds and the construction of gymnasium and numpy objects: a space keeps only its shape and element-type name, an array only its shape and elements.
- numpy element types: an array's elements carry only the four protobuf scalar kinds. `np.array` of a repeated field gives an `int64` or `float64` array in numpy, and the model keeps the field's own element type instead. An action array of numpy's default `int64` cannot be expressed; `Casts` stands for its conversion into the field.
- How protobuf converts an element stored in a field of another numeric type: the conversion, or the exception it raises, is the `Casts` parameter.
- Multi-dimensional arrays are held as their shape plus their elements in row-major order. Observations are always one-dimensional, and the packer refuses any other rank.
- Controller.PackArray: every array whose rank is not one raises `TypeError`. Two edge cases are not modelled. An array whose first axis has length zero has no rows to reject, and protobuf would store it empty. A `float` or `double` array whose rows hold one element each may be converted by numpy's size-one conversion.
- Controller.RxEnvStateSpec: an unset game-over reason is held as `None`, where Python reads the enum's default value. No modelled call reads `gameOverReason` back, so nothing depends on it.
- Lockstep.InStep: the two processes are not scheduled together. The lemma assumes what the ordered channel guarantees, that each side has read a prefix of what the other wrote. A run of the simulator and a run of the controller are joined by that assumption, not by a combined state machine.
- `experiment.py` (starting and killing the simulator process) is not part of this model. The simulator is a parameter (`Launcher`): the frames it writes on a new channel, as a function of the settings it is launched with. Two launches with the same settings therefore write the same frames; randomness and time inside the simulator are not modelled.
- Controller.Ns3Env.constructor: the singleton guard (`ns3env.py:313-315`) is left out. The assignment `self._created = True` sets an attribute of the instance being built, while the class attribute `_created` (line 19) stays `False`. A second instance therefore reads `False` again, and the guard never raises. The model constructs without it, which is what the code does. The binding import, `targetName`, `ns3Path`, the message-interface settings and `shmSize` only configure the transport and the process, which are not modelled.
- Messages.AckOf, Messages.ActOf, Messages.InitOf, Messages.StateOf: a receiver parses whatever bytes are in the buffer as the message type it expects. The model reads a frame of the other kind as the message with every field at its default. The bytes protobuf would actually parse are not modelled. On the channels the lemmas describe, no such frame arrives.
- `_poll_handler`, `render`, `get_random_action` (random sampling) and `close` (process kill) are left out.
- Controller.Restart: the controller's initial reward is the integer `0`; the model uses float zero, since the two compare equal.
- Controller.RxEnvStateSpec: an absent observation field is read as the message default (no case set), which raises `TypeError`, as protobuf returns a default message for an unset field. As written, this depends on the assumption on the `Controller.CreateData` line.
- Controller.CreateData: the as-written arms at `ns3env.py:88` and `:94` look up `pb.Tuple` and `pb.Dict`. The generated message module is not part of this model, so whether those names exist is left open. The model assumes both names exist (as enum constants, say) and are not the strings `WhichOneof` returns, so the match reaches `case type_:` and raises `TypeError`. If the module has no such name, Python raises `AttributeError` instead, for every message that reaches that arm: tuple, dict, and a message with no case set.
- The bound `n` of a discrete container is stored but never checked against the value, as in the source.

## Findings

| source | as written | input that shows it | evidently intended | confidence | as-written member | corrected member |
|---|---|---|---|---|---|---|
| python/src/ns3env/ns3env.py:41-44 | `_create_space` maps DOUBLE to `float32` and FLOAT to `float64`; `_pack_data` packs `float64` as FLOAT (line 217) | a box space with dtype DOUBLE: the action packed for it is tagged FLOAT | DOUBLE to `float64`, FLOAT to `float32`, and `float64` packed as DOUBLE | high; not executed | `Controller.DoubleSpaceSentBackAsFloat` | `Controller.DtypeRoundTrip` |
| python/src/ns3env/ns3env.py:88-98 | the tuple and dict arms compare the case name with `pb.Tuple` and `pb.Dict`, which are not the strings `WhichOneof` returns, so they never match | any tuple or dict observation raises `TypeError` (or `AttributeError` if those names do not exist; see "## Left out") | match the case names `"tuple"` and `"dict"` | high; not executed | `Controller.CompoundObservationRejected` | `Controller.ObservationRoundTrip` |
| python/src/ns3env/ns3env.py:235-266 | the tuple and dict arms pair the children with the subspaces of `self.action_space`, not of `spaceDesc` | action space `Tuple(Tuple(Discrete(2)))` with action `((1,),)`: assertion fails; `Dict(outer: Dict(inner: Discrete(2)))` with `{"outer": {"inner": 1}}`: `KeyError` | recurse into `spaceDesc`'s own subspaces | high; not executed | `Controller.NestedTupleActionRejected` | `Controller.PackFits` |
| python/src/ns3env/ns3env.py:379 | `reset` relaunches the simulator with `self.exp.run(show_output=True)`, without the `ns3Settings` that `__init__` passed at line 347 | settings `S` under which the simulator writes other frames than with none: after a reset the first frame read is the one written with no settings | `self.exp.run(setting=self.ns3Settings, show_output=True)` | medium; not executed | `Controller.ResetDropsSettings` | `Controller.ResetKeepsSettings` |
