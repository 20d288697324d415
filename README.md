# Backend payload decoders, modelled in Dafny

This project models the conversion layer of `qiskit_ibm_runtime/utils/backend.py`. The
IBM Quantum service sends backend data as JSON-shaped dicts and lists. Before the client
builds its typed objects, these functions rewrite that data in place:

- `_to_complex` turns a pair `[re, im]`, or a value that is already complex, into a
  Python `complex`, and raises `TypeError` on anything else.
- `_decode_pulse_library_item`, `_decode_pulse_qobj_instr` and `decode_pulse_defaults`
  coerce pulse samples, instruction values `val` and amplitudes `parameters["amp"]` of a
  pulse-defaults dict to complex numbers.
- `decode_backend_properties` replaces `last_update_date` with its parsed timestamp. It
  does the same for the `date` of every qubit record, of every gate parameter and of
  every general record.
- `decode_backend_configuration` parses `online_date`. When `u_channel_lo` is present,
  it also coerces the `scale` of every u-channel LO.
- `convert_reservation_data` turns raw reservation records into reservation values.

## How the model is built

- **Wire values** (`Wire`). A wire value is the datatype `Json`. A dict is an association
  list, because Python dicts keep insertion order and iterating a dict yields its keys in
  that order. The decoders rely on a few Python operations, and each is modelled the way
  Python behaves, including the exception it raises:
  - subscripting (`Get`): KeyError, or TypeError on a non-dict;
  - subscript assignment (`Put`);
  - the `in` test (`Contains`): dict key, list element or substring;
  - iteration (`Elements`): a list's items, a string's characters or a dict's keys;
  - truthiness;
  - `dict.get` (`DictGet`): AttributeError on a non-dict.
- **In-place updates** (`InPlace`). Each decoder mutates the caller's structure and
  returns None. In the model it returns `After(state, raised)`: the structure as the
  caller sees it once the call has returned or raised, together with the exception. The
  decoders are not transactional. When a later step raises, the earlier rewrites stay in
  `state`, and the lemmas state this.
- **Loops**. Each Python `for` loop is a Dafny `while` loop:
  - the generic one is `InPlace.LoopInPlace`;
  - the outer loops of the nested walks are `PulseDefaults.DecodeCommandDefinitions`,
    `BackendProperties.DecodeQubits`, `BackendProperties.DecodeGates` and
    `BackendConfiguration.DecodeChannelLists`.

  Each method is proved equal to a specification function, for example
  `PulseDefaultsAfter`. The properties are then proved as lemmas about that function.
- **Collaborators become parameters**. `dateutil.parser.isoparse` is a parameter of type
  `string -> Option<DateTime>`. `utc_to_local` is a parameter of type
  `Json -> Result<DateTime>`.
- **The sticky backend name**. `convert_reservation_data` rebinds its `backend_name`
  parameter inside the loop (backend.py:41). The model carries that value from record to
  record. `ReservationsProperties.BackendNameIsFirstTruthy` proves the result against an
  independent definition, Python's `n or name_0 or ... or name_i`.

The following members are the Python operations the decoders are built from. They are
definitions, and the "## Model" table claims no property for them beyond what the lemmas about
the decoders prove:

- `Wire.Get` is `d[key]` (backend.py:62, 77-87, 97-102, 45-46).
- `Wire.Contains` is `key in x` (backend.py:66, 99, 142, 144).
- `Wire.DictGet` is `raw.get(key, None)` (backend.py:37, 41, 47-50).
- `Wire.Truthy` is Python truthiness (backend.py:39, 41).
- `Wire.IsoParse` applies `dateutil.parser.isoparse` (backend.py:77-79, 82, 85, 87, 97).
- `ComplexCoercer.ToComplexJson` stores `_to_complex`'s result back as a wire value
  (backend.py:102, 143, 145-147).
- `PulseDefaults.SamplesToComplex` is the list comprehension (backend.py:131-133).
  `PulseDefaults.ComplexAll` and `PulseDefaults.DecodePulseLibraryItem` state its properties.
- `Reservations.Or` is `a or b` (backend.py:41).
  `ReservationsProperties.OrAllIsFirstTruthy` states what a chain of them yields.
- `Reservations.LocalIfTruthy` is the conditional expression of backend.py:38-40.
  `Reservations.ConvertOneFields` states the creation time it yields.

Where the documented behaviour and the code differ, the model follows the code:

- `creationDate` is converted only when it is truthy, not whenever it is present.
- The backend name of a record without an override is the first truthy name seen so far,
  not that record's own name.
- When no record has a truthy name, the reservation gets the record's own (falsy) value:
  None, or an empty string.

## Model

| member | source | states |
|---|---|---|
| Wire.Put | qiskit_ibm_runtime/utils/backend.py:82 | after `d[key] = v` the key holds `v`, every other key reads as before, and an existing key keeps its place in the key order |
| Wire.Elements | qiskit_ibm_runtime/utils/backend.py:80-81 | a `for` loop visits a list's items; a string or dict yields strings; anything else raises TypeError before the first step |
| InPlace.Assign | qiskit_ibm_runtime/utils/backend.py:82 | `x[key] = f(x[key])` completes exactly when the key is there and `f` succeeds, then writes `f`'s value; on a raise `x` is unchanged; a missing key raises its KeyError |
| InPlace.ForEach | qiskit_ibm_runtime/utils/backend.py:62-63 | the specification of `for x in xs: body(x)`: one item per input item; `ForEachCompleted`, `ForEachCompletes` and `ForEachStopsAt` prove it completes exactly when every step does, rewrites item by item, and stops at the first raise with earlier items rewritten and later items untouched |
| InPlace.Loop | qiskit_ibm_runtime/utils/backend.py:81-82 | the specification of `for x in c`, raising TypeError on a value that is not iterable; `LoopCompleted` and `LoopCompletes` lift the `ForEach` facts to it |
| InPlace.LoopAt | qiskit_ibm_runtime/utils/backend.py:62-63 | the specification of `for x in d[key]`, which raises the error of `d[key]` before any step; `LoopAtCompleted` and `LoopAtFrame` prove a completed loop kept every other key and the key order |
| InPlace.ForEachCompleted | qiskit_ibm_runtime/utils/backend.py:62-63 | a loop that raised nothing ran its body to completion on every item, in order, item i holding the body's result |
| InPlace.ForEachCompletes | qiskit_ibm_runtime/utils/backend.py:62-63 | a loop completes if and only if its body completes on every item |
| InPlace.ForEachStopsAt | qiskit_ibm_runtime/utils/backend.py:62-63 | when item j is the first to raise, that exception escapes, items before j stay rewritten, item j is as the body left it, and later items are untouched |
| InPlace.LoopCompleted | qiskit_ibm_runtime/utils/backend.py:81-82 | a completed loop over a list relates each item to its rewritten self by any relation every completed body step establishes, keeping the length |
| InPlace.LoopCompletes | qiskit_ibm_runtime/utils/backend.py:81-82 | a loop over a list completes if and only if every item's step completes |
| InPlace.LoopAtCompleted | qiskit_ibm_runtime/utils/backend.py:62-63 | a completed `for x in d[key]` needed `key`, kept the key order, changed no other key, and rewrote `d[key]` item by item |
| InPlace.LoopAtFrame | qiskit_ibm_runtime/utils/backend.py:62-63 | a completed `for x in d[key]` needed `key` and left the key order and every other key as they were |
| InPlace.LoopInPlace | qiskit_ibm_runtime/utils/backend.py:81-82 | the while loop over the items computes the same outcome as the specification `Loop`, including where it stops on a raise |
| InPlace.LoopAtInPlace | qiskit_ibm_runtime/utils/backend.py:62-63 | `for x in d[key]` as a loop computes the specification `LoopAt` |
| ComplexCoercer.PyComplex | qiskit_ibm_runtime/utils/backend.py:118 | `complex(a, b)` succeeds exactly on two numbers (bool and complex included) and is `a + b j` for real arguments; otherwise TypeError |
| ComplexCoercer.ToComplex | qiskit_ibm_runtime/utils/backend.py:105-122 | succeeds exactly on a complex or a pair of numbers; a complex passes through; any other shape raises the coercer's own TypeError; a pair holding a non-number raises `complex()`'s TypeError |
| ComplexCoercer.PairOfReals | qiskit_ibm_runtime/utils/backend.py:117-118 | `[a, b]` of two reals becomes the complex number with real part a and imaginary part b |
| ComplexCoercer.PairRoundTrip | qiskit_ibm_runtime/utils/backend.py:117-120 | every coerced value, written back as a pair of its parts, coerces to the same complex number |
| ComplexCoercer.Idempotent | qiskit_ibm_runtime/utils/backend.py:119-120 | coercing an already coerced value returns it unchanged |
| ComplexCoercer.Rejects | qiskit_ibm_runtime/utils/backend.py:117-122 | every other input raises TypeError: lists of length other than 2, scalars, strings, dicts and timestamps with the coercer's own error |
| ComplexCoercer.PairOfComplexes | qiskit_ibm_runtime/utils/backend.py:118 | a pair of complex numbers x, y becomes x + y j |
| PulseDefaults.ComplexAll | qiskit_ibm_runtime/utils/backend.py:131-133 | the list comprehension succeeds exactly when every element coerces, and then has one element per sample, element k being `_to_complex` of sample k |
| PulseDefaults.ComplexAllFailsAt | qiskit_ibm_runtime/utils/backend.py:131-133 | when element k is the first that cannot be coerced, its exception is what the comprehension raises |
| PulseDefaults.DecodePulseLibraryItem | qiskit_ibm_runtime/utils/backend.py:125-133 | completes exactly when `samples` is present, iterable and every element coerces; then samples has the same length, element i is `_to_complex` of old element i, other keys unchanged; on a raise the item is untouched |
| PulseDefaults.DecodePulseQobjInstr | qiskit_ibm_runtime/utils/backend.py:136-147 | the decoding of one pulse instruction: `InstructionDecoded` proves a completed call coerced `val` if present, coerced `parameters["amp"]` only when both are present, and changed nothing else; `InstructionWithoutFields` proves an instruction with neither passes untouched; `InstructionPartlyDecoded` proves a failing `amp` leaves `val` rewritten |
| PulseDefaults.DecodeCommand | qiskit_ibm_runtime/utils/backend.py:66-68 | a command dict without `sequence` is left untouched without raising |
| PulseDefaults.DecodeCommandInPlace | qiskit_ibm_runtime/utils/backend.py:66-68 | the per-command step computes the specification `DecodeCommand` |
| PulseDefaults.DecodeCommandDefinitions | qiskit_ibm_runtime/utils/backend.py:65-68 | the loop over `cmd_def`, with its nested loop over each sequence, computes the specification, stopping where it raises |
| PulseDefaults.PulseDefaultsAfter | qiskit_ibm_runtime/utils/backend.py:56-68 | the specification of `decode_pulse_defaults`: `PulseDefaultsDecoded` proves a completed call coerced every sample and decoded every command and changed no other key; `PulseLibraryRequired` and `CommandDefinitionsRequired` prove the KeyErrors of the two mandatory keys and what stays rewritten |
| PulseDefaults.DecodePulseDefaults | qiskit_ibm_runtime/utils/backend.py:56-68 | the two loops in order compute `PulseDefaultsAfter` |
| PulseDefaultsProperties.InstructionWithoutFields | qiskit_ibm_runtime/utils/backend.py:142-147 | an instruction without `val` and `parameters` passes untouched without raising |
| PulseDefaultsProperties.InstructionDecoded | qiskit_ibm_runtime/utils/backend.py:136-147 | after a completed call `val` holds `_to_complex` of its old value if it was present and is absent otherwise; `parameters["amp"]` is coerced only if both are present; no other key changes |
| PulseDefaultsProperties.InstructionPartlyDecoded | qiskit_ibm_runtime/utils/backend.py:142-147 | when `val` coerces and `amp` does not, `val` stays rewritten while `amp`'s TypeError escapes |
| PulseDefaultsProperties.CommandCompleted | qiskit_ibm_runtime/utils/backend.py:66-68 | a completed command step left a command without `sequence` untouched, and otherwise decoded every instruction of its sequence and changed nothing else |
| PulseDefaultsProperties.PulseDefaultsDecoded | qiskit_ibm_runtime/utils/backend.py:62-68 | after a completed call every pulse-library item has its samples coerced element by element with the same length, every command is decoded, and every other key is unchanged |
| PulseDefaultsProperties.PulseLibraryRequired | qiskit_ibm_runtime/utils/backend.py:62 | without `pulse_library` the call raises KeyError and changes nothing |
| PulseDefaultsProperties.CommandDefinitionsRequired | qiskit_ibm_runtime/utils/backend.py:62-65 | without `cmd_def` the call raises KeyError and the pulse library stays decoded |
| PulseDefaultsProperties.SamplesExample | qiskit_ibm_runtime/utils/backend.py:131-133 | samples `[[1.0, 2.0], [0.0, -1.0]]` become `[1+2j, 0-1j]` |
| BackendProperties.ParseDate | qiskit_ibm_runtime/utils/backend.py:82 | the step `x["date"] = isoparse(x["date"])`; `DateStepCompleted` proves a completed step wrote the parse of the old date string and nothing else |
| BackendProperties.DecodeQubit | qiskit_ibm_runtime/utils/backend.py:81-82 | the loop over one qubit's records; `QubitStepCompleted` proves a completed step parsed the date of every record, keeping the length |
| BackendProperties.DecodeGate | qiskit_ibm_runtime/utils/backend.py:84-85 | the loop over one gate's `parameters`; `GateStepCompleted` proves a completed step parsed every parameter's date and changed no other key of the gate |
| BackendProperties.BackendPropertiesAfter | qiskit_ibm_runtime/utils/backend.py:71-87 | the specification of `decode_backend_properties`: `BackendPropertiesDecoded` proves a completed call parsed all four kinds of date and changed nothing else; `LastUpdateDateRequired`, `LastUpdateDateMalformed` and `QubitsRequired` prove its early errors and what stays rewritten; the `*DateRequired` lemmas prove every record must be a dict holding `date` |
| BackendProperties.DecodeQubits | qiskit_ibm_runtime/utils/backend.py:80-82 | the nested loop over qubits and their records computes the specification, stopping where it raises |
| BackendProperties.DecodeGates | qiskit_ibm_runtime/utils/backend.py:83-85 | the nested loop over gates and their parameters computes the specification, stopping where it raises |
| BackendProperties.DecodeBackendProperties | qiskit_ibm_runtime/utils/backend.py:71-87 | the four steps in the source's order compute `BackendPropertiesAfter` |
| BackendPropertiesProperties.DateStepCompleted | qiskit_ibm_runtime/utils/backend.py:86-87 | a completed `x["date"] = isoparse(x["date"])` replaced a date string by its parse and changed nothing else |
| BackendPropertiesProperties.QubitStepCompleted | qiskit_ibm_runtime/utils/backend.py:81-82 | a completed step over one qubit parsed the date of each of its records, keeping the length |
| BackendPropertiesProperties.GateStepCompleted | qiskit_ibm_runtime/utils/backend.py:84-85 | a completed step over one gate parsed the date of each parameter and changed no other key of the gate |
| BackendPropertiesProperties.BackendPropertiesDecoded | qiskit_ibm_runtime/utils/backend.py:77-87 | after a completed call `last_update_date` and every date in `qubits[*][*]`, `gates[*].parameters[*]` and `general[*]` hold the parse of their old string; lengths and all other keys are unchanged |
| BackendPropertiesProperties.LastUpdateDateRequired | qiskit_ibm_runtime/utils/backend.py:77-79 | without `last_update_date` the call raises KeyError and changes nothing |
| BackendPropertiesProperties.LastUpdateDateMalformed | qiskit_ibm_runtime/utils/backend.py:77-79 | a `last_update_date` the parser rejects raises ValueError and changes nothing |
| BackendPropertiesProperties.QubitsRequired | qiskit_ibm_runtime/utils/backend.py:77-80 | without `qubits` the call raises KeyError while `last_update_date` stays parsed |
| BackendPropertiesProperties.QubitDatesPresent | qiskit_ibm_runtime/utils/backend.py:80-82 | after a completed call every record of every qubit was a dict holding `date` |
| BackendPropertiesProperties.QubitDateRequired | qiskit_ibm_runtime/utils/backend.py:80-82 | a qubit record that is not a dict holding `date` makes the call raise |
| BackendPropertiesProperties.GateDatesPresent | qiskit_ibm_runtime/utils/backend.py:83-85 | after a completed call every parameter of every gate was a dict holding `date` |
| BackendPropertiesProperties.GateParameterDateRequired | qiskit_ibm_runtime/utils/backend.py:83-85 | a gate parameter that is not a dict holding `date` makes the call raise |
| BackendPropertiesProperties.GeneralDateRequired | qiskit_ibm_runtime/utils/backend.py:86-87 | a general record that is not a dict holding `date` makes the call raise |
| BackendConfiguration.ScaleToComplex | qiskit_ibm_runtime/utils/backend.py:102 | the step `lo["scale"] = _to_complex(lo["scale"])`; `ChannelListCompleted` proves what a completed step wrote |
| BackendConfiguration.DecodeChannelList | qiskit_ibm_runtime/utils/backend.py:101-102 | the loop over one LO list; `ChannelListCompleted` proves a completed loop coerced every LO's scale and changed nothing else |
| BackendConfiguration.BackendConfigurationAfter | qiskit_ibm_runtime/utils/backend.py:90-102 | the specification of `decode_backend_configuration`: `BackendConfigurationDecoded` proves a completed call parsed `online_date`, coerced every scale when `u_channel_lo` is present and changed nothing else; `OnlineDateRequired`, `WithoutChannels` and `ScaleRequired` prove the error and absent-key cases |
| BackendConfiguration.DecodeChannelLists | qiskit_ibm_runtime/utils/backend.py:100-102 | the nested loop over the u-channel LO lists computes the specification, stopping where it raises |
| BackendConfiguration.DecodeBackendConfiguration | qiskit_ibm_runtime/utils/backend.py:90-102 | the online date, then the optional LO loop, compute `BackendConfigurationAfter` |
| BackendConfigurationProperties.ChannelListCompleted | qiskit_ibm_runtime/utils/backend.py:101-102 | a completed step over one LO list coerced every LO's scale and changed nothing else |
| BackendConfigurationProperties.BackendConfigurationDecoded | qiskit_ibm_runtime/utils/backend.py:97-102 | after a completed call `online_date` holds the parse of its old string; if `u_channel_lo` is present every scale is coerced with the nested list shape kept, and if absent it stays absent; other keys are unchanged |
| BackendConfigurationProperties.OnlineDateRequired | qiskit_ibm_runtime/utils/backend.py:97 | without `online_date` the call raises KeyError and changes nothing |
| BackendConfigurationProperties.WithoutChannels | qiskit_ibm_runtime/utils/backend.py:97-99 | a configuration without `u_channel_lo` only has its online date rewritten |
| BackendConfigurationProperties.ScaleRequired | qiskit_ibm_runtime/utils/backend.py:100-102 | an LO whose scale cannot be coerced makes the call raise |
| BackendConfigurationProperties.ScaleExample | qiskit_ibm_runtime/utils/backend.py:97-102 | `u_channel_lo = [[{"q": 0, "scale": [0.5, 0.0]}]]` decodes to scale `0.5+0j`, with the online date parsed |
| Reservations.ConvertOne | qiskit_ibm_runtime/utils/backend.py:37-51 | a record converts exactly when it is a dict whose truthy creation date and mandatory dates all convert; its name is the carried name `or` the record's `backendName` |
| Reservations.ConvertOneFields | qiskit_ibm_runtime/utils/backend.py:37-51 | a non-dict raises AttributeError; a missing `initialDate` or `endDate` raises its KeyError; start and end are the local times; creation is None exactly when `creationDate` is falsy; mode, id and hub info are copied, None when absent |
| Reservations.Convert | qiskit_ibm_runtime/utils/backend.py:36-53 | a completed conversion has one reservation per record |
| Reservations.ConvertReservationData | qiskit_ibm_runtime/utils/backend.py:23-53 | the loop that appends and rebinds `backend_name` computes the specification `Convert` |
| ReservationsProperties.OrAllIsFirstTruthy | qiskit_ibm_runtime/utils/backend.py:41 | a chain of `or` is its first truthy operand, or its last operand when none is truthy |
| ReservationsProperties.ConvertedInOrder | qiskit_ibm_runtime/utils/backend.py:35-53 | a completed call returns exactly one reservation per record, in input order, reservation i being record i converted with the name carried so far |
| ReservationsProperties.MandatoryDates | qiskit_ibm_runtime/utils/backend.py:45-46 | a record without `initialDate` or `endDate` makes the call raise |
| ReservationsProperties.ReservationFields | qiskit_ibm_runtime/utils/backend.py:38-50 | in a completed call every record was convertible; mode, id and hub info are None when absent; creation is None exactly when `creationDate` is falsy; start and end are the local times of the record's dates |
| ReservationsProperties.BackendNameIsFirstTruthy | qiskit_ibm_runtime/utils/backend.py:41-44 | reservation i is named `backend_name or name_0 or ... or name_i` |
| ReservationsProperties.OverrideNamesAll | qiskit_ibm_runtime/utils/backend.py:41 | a truthy `backend_name` argument names every reservation |
| ReservationsProperties.NameSticks | qiskit_ibm_runtime/utils/backend.py:41 | once a reservation gets a truthy name, every later reservation gets the same name |
| ReservationsProperties.ReservationExample | qiskit_ibm_runtime/utils/backend.py:23-53 | one record with only its two dates, converted with `backend_name="ibmq_x"`, gives one reservation named `"ibmq_x"` with local start and end and no mode, id, creation time or hub info |

## Left out

- Heap identity and aliasing. The decoders are modelled on values. If one dict object is reachable twice in a payload, Python rewrites it on the first visit and sees the rewritten value on the second. For example, `isoparse` would then be applied to a datetime and raise. The model decodes each occurrence independently.
- The ISO 8601 grammar of `dateutil.parser.isoparse`. It is a parameter. A non-string argument is modelled as TypeError, although dateutil raises other exception classes for some non-string arguments.
- `utc_to_local`, from the converters module, which is not part of this model. It is a parameter that either yields a timestamp or raises.
- Floating point. The parts of a complex number and every JSON number are mathematical reals. Python's int and float are not distinguished, and overflow and rounding of `complex()` are not modelled.
- `BackendReservation`, from the backendreservation module, which is not part of this model. It is a plain record of its constructor arguments.
- `raw_reservations` is modelled as a sequence, as its `List` annotation says. Iterating a non-list argument is not modelled.
- Exception messages. Two exceptions carry data: a KeyError carries the missing key, and `_to_complex`'s own TypeError carries the offending value. Every other exception is modelled by its class alone.
- Exceptions raised by the loop machinery itself, such as a list mutated during iteration. The loop bodies never change the length of the list they iterate.
- ComplexCoercer.PyComplex: its contract states the value only for real (non-complex) arguments. `ComplexCoercer.PairOfComplexes` states the complex case of `_to_complex`.
- `qiskit_ibm_runtime/utils/__init__.py` only re-exports names, and its re-exported modules are not part of this model.
- `setup.py` is packaging metadata.
- `test/ibm/test_account_client.py` exercises the network and authentication clients.
