# MyFavoriteDouble handle lifecycle, in Dafny

MyFavoriteDouble lets MATLAB hold C++ objects between calls to a MEX gateway.
The C++ class `myClass` is a scalar complex number. Each instance that the
host keeps is owned by a `class_handle` record on the C++ heap. The record
carries a signature word (`0xB20F1D58`) and the name of its type. The host
only ever sees the record's address, as a 1x1 real `uint64` array.

A single entry point, `mexFunction`, reads a command string and then does one
of the following:
- creates an object (`new`, `newFromMatlab`);
- destroys one (`delete`);
- answers whether an identifier is valid (`isValid`);
- prints an object (`display`) or exports it (`double`);
- adds two objects into a new one (`plus`).

Every creation calls `mexLock` once, and every destruction calls `mexUnlock`
once.

The model has four modules:

- `Mex` (mex.dfy). Host arrays, as the datatype `MxArray`: char, double
  (real and optional imaginary data), uint64, uint8, or anything else. It
  also has their shape queries, the identifier array, the flag array that
  `isValid` returns, the command-string read, and the gateway's error
  messages.
- `MyClassModel` (my_class.dfy). `myClass` is a class with two `real`
  fields. It has these members:
  - its default, copy and buffer constructors (the buffer constructor keeps
    its column and row loops, with invariants);
  - `display`;
  - `toDouble` (again with its loops, writing into arrays);
  - `+=`, `+`, `plus_new` and `plus_new_ptr`.

  `ReadBuffer` and `ToDouble` are proved against the functions `BufferValue`
  and `DoubleArrayOf`. `BufferValue` undoes `DoubleArrayOf` for every value.
  The converse holds for every 1x1 buffer except a complex one whose
  imaginary entry is zero: its export is real.
- `ClassHandle` (class_handle.dfy). The process heap is a `Registry` object:
  - a map from address to slot, where a slot is a live `class_handle`
    record or freed memory;
  - a lock counter.

  Its invariant `Valid` says two things: every live record is valid, and the
  lock count equals the number of live records. `CreateId`, `Convert`,
  `RecoverObj`, `Destroy` and `CheckValidity` model the helpers of
  class_handle.hpp. Each of them is tied to the reference functions
  `HandleIn` and `ValidityIn`, which work over the set of live ids.
- `MexGateway` (mex_function.dfy). `MexFunction` runs the dispatcher on a
  `Registry`. It is proved against `Step`, a pure function from the live
  values (address to value) to a result and new live values. The lemmas
  about `Step` state what each command does and does not change.

Where the program and its documentation disagree, the model follows the
program:

- `isValid` never answers 0. The gateway recovers the second input at
  myFavDouble_mex.cpp:112, before the `isValid` branch, so a valid record
  is required before `isValid` is reached. For a destroyed or unknown
  identifier the program then reads freed or arbitrary memory (undefined
  behaviour, typically a crash); in the model that recovery fails with
  HandleNotValid. Either way the only successful answer is 1
  (`IsValidNeverAnswersFalse`).
- A destroyed identifier can become valid again. Nothing stops the allocator
  from placing a later record at a freed address, and the old identifier then
  names the new object (`DeletedIdCanComeBack`).
- `plus` needs three inputs, but it never reports its own argument error
  for a missing third one. The third input is read at line 159, before the
  check at line 165. With two inputs that read is out of bounds. The model
  reports it as `ThirdInputMissing` (`ThirdInputReadFirst`).

## Model

| member | source | states |
|---|---|---|
| Mex.IdArray | class_handle.hpp:134-135 | the identifier handed to the host is a well-formed 1x1 real uint64 array holding exactly the record's address |
| Mex.FlagArray | myFavDouble_mex.cpp:122-134 | isValid's answer is a well-formed 1x1 uint8 array holding 1 exactly when the identifier is valid and 0 exactly when it is not |
| Mex.CommandText | myFavDouble_mex.cpp:27-29 | a command is read exactly when the first input is a string shorter than the 64-byte buffer, and the command is that string |
| MyClassModel.ShownOf | myClass.hpp:59-65 | display prints the imaginary part exactly when it is non-zero, and the printed parts give back the whole value |
| MyClassModel.DoubleArrayOf | myClass.hpp:70-98 | the export is a well-formed 1x1 double array, complex exactly when the imaginary part is non-zero, whose real and imaginary data hold the two parts |
| MyClassModel.ExportThenImport | myClass.hpp:24-53 | constructing from the export of any value gives that value back |
| MyClassModel.ImportThenExport | myClass.hpp:70-98 | exporting what was constructed from a 1x1 buffer gives the buffer back, unless that buffer is complex with a zero imaginary part |
| MyClassModel.MyClass.constructor | myClass.hpp:18 | a default object has both parts zero |
| MyClassModel.MyClass.Copy | myClass.hpp:21 | a copy has both parts of its source |
| MyClassModel.MyClass.ReadBuffer | myClass.hpp:24-53 | the buffer constructor fails with InvalidSize unless the buffer is 1x1; otherwise it reads the real entry, and the imaginary entry or 0 when the buffer is real; its result is BufferValue |
| MyClassModel.MyClass.ToDouble | myClass.hpp:70-98 | the array built through the loops is DoubleArrayOf the object's value |
| MyClassModel.MyClass.PlusAssign | myClass.hpp:101-106 | `+=` adds the operand's parts to the object's own and leaves a distinct operand unchanged |
| MyClassModel.MyClass.Plus | myClass.hpp:108-114 | `+` returns the componentwise sum and changes neither operand |
| MyClassModel.MyClass.PlusNew | myClass.hpp:131-137 | plus_new returns a freshly allocated object holding the sum |
| MyClassModel.MyClass.PlusNewPtr | myClass.hpp:142-149 | plus_new_ptr returns a freshly allocated object holding the sum |
| ClassHandle.NewHandle | class_handle.hpp:113 | a newly built record is valid and owns the given object |
| ClassHandle.IsValid | class_handle.hpp:115 | a record is valid exactly when it is live and carries the signature and type name the constructor gives it |
| ClassHandle.Destruct | class_handle.hpp:114 | a destroyed record is no longer valid, and its signature reads like that of freed memory |
| ClassHandle.HandleIn | class_handle.hpp:154-162 | a malformed identifier is NotRealUInt64Scalar; a well-formed one is accepted exactly when its id is live, and otherwise fails with HandleNotValid |
| ClassHandle.ValidityIn | class_handle.hpp:210-216 | validity fails only for a malformed identifier, and answers true exactly when the id is live |
| ClassHandle.Registry.CreateId | class_handle.hpp:130-146 | creation keeps the invariant, locks once, adds exactly one live record at the new address, returns its identifier, and that identifier recovers the object |
| ClassHandle.Registry.Convert | class_handle.hpp:154-162 | on the invariant, conversion is HandleIn over the live ids; an accepted address holds a valid record |
| ClassHandle.Registry.RecoverObj | class_handle.hpp:170-190 | recovery succeeds exactly when conversion does, with the same error, and yields the live value behind the id |
| ClassHandle.Registry.Destroy | class_handle.hpp:199-204 | destruction validates first, so an error changes nothing; otherwise it frees exactly that record, unlocks once, removes exactly that id from the live ids, and keeps the invariant |
| ClassHandle.Registry.CheckValidity | class_handle.hpp:210-216 | on the invariant, the validity check is ValidityIn over the live ids |
| MexGateway.MexFunction | myFavDouble_mex.cpp:24-217 | one gateway call keeps the invariant, its result and new live values are Step of the old ones, an error changes nothing, and no other record is touched |
| MexGateway.DoNew | myFavDouble_mex.cpp:32-60 | the `new` branch behaves as StepNew on the live values |
| MexGateway.DoNewFromMatlab | myFavDouble_mex.cpp:63-92 | the `newFromMatlab` branch behaves as StepNewFromMatlab on the live values |
| MexGateway.DoDelete | myFavDouble_mex.cpp:95-104 | the `delete` branch behaves as StepDelete on the live values |
| MexGateway.DoOnInstance | myFavDouble_mex.cpp:106-216 | the commands on an existing instance behave as StepOnInstance on the live values |
| MexGateway.CommandStringCheckedFirst | myFavDouble_mex.cpp:27-29 | with no input, or a first input that is not a short string, the call fails with the command-string error and changes nothing |
| MexGateway.FailureChangesNothing | myFavDouble_mex.cpp:24-217 | every failing call leaves the live values as they were |
| MexGateway.NewRegistersDefaultOrCopy | myFavDouble_mex.cpp:32-60 | `new` wants exactly one output; with no argument it registers a zero object, with a live handle a copy that leaves the source untouched, with more arguments it fails |
| MexGateway.NewFromMatlabAddsOne | myFavDouble_mex.cpp:63-92 | `newFromMatlab` succeeds exactly for two inputs, at most one output and a 1x1 double, and then adds exactly one live id holding the buffer's value |
| MexGateway.DeleteInvalidates | myFavDouble_mex.cpp:95-104 | `delete` fails with DeleteWrongArguments unless there are exactly two inputs; with two it succeeds exactly when the second names a live handle, and then that handle is no longer live, the validity check says false, and a second delete fails with HandleNotValid |
| MexGateway.SecondInputRequired | myFavDouble_mex.cpp:106-112 | every command other than new, newFromMatlab and delete fails with SecondInputNotFound given one input, and with the recovery errors for a malformed or dead second input, before its own branch is reached |
| MexGateway.IsValidNeverAnswersFalse | myFavDouble_mex.cpp:107-136 | isValid changes nothing and its only successful answer is 1; a well-formed identifier that is not live fails with HandleNotValid; a live one is answered 1 exactly when an output is expected and there are two inputs, and otherwise fails with IsValidUnexpectedArguments |
| MexGateway.QueriesChangeNothing | myFavDouble_mex.cpp:112-154 | display, double and isValid change no live value and succeed only on a live second input; on one, display always shows its value, and double exports it exactly when one output is expected and otherwise fails with DoubleUnexpectedArguments |
| MexGateway.PlusAddsOneHandle | myFavDouble_mex.cpp:157-213 | plus succeeds exactly when there are three inputs, an output is expected and both operands are live; it then registers exactly one new handle holding their sum, leaving the operands as they were |
| MexGateway.ThirdInputReadFirst | myFavDouble_mex.cpp:157-216 | plus and unknown commands with two inputs reach the missing third input, never plus's own argument error; with two live operands an unknown command is CommandNotRecognized |
| MexGateway.CopyOutlivesSource | myFavDouble_mex.cpp:43-56 | a copy made by `new` stays live with its value after its source is deleted |
| MexGateway.DeletedIdCanComeBack | class_handle.hpp:130-137 | a deleted id that the allocator hands out again is valid again and names the new object |
| MexGateway.SampleSession | myFavDouble_mex.cpp:24-217 | a default object, 3.5 and 2.5+1i from the host, their sum exported as 6+1i; a 2x2 buffer is refused with InvalidSize |

## Left out

- Host marshalling is abstracted. An `mxArray` is a value of `MxArray`, and every array the host passes is assumed well-formed (at least two dimensions, data of the right length).
- Pointer reinterpretation is not modelled. An id becomes an address in a map, and reading an address where no record was ever placed (undefined behaviour in the program) reads as not valid.
- A destroyed record is assumed to read with signature 0 (`SignatureOf` of a freed slot), so a destroyed id fails recovery with HandleNotValid. The program reads freed memory there, which is undefined behaviour; it may crash or find anything.
- `prhs[2]` read when `nrhs == 2` is undefined behaviour in the program. It is modelled as the error `ThirdInputMissing`, which changes nothing.
- `typeid(T).name()` becomes the tag `TypeName`. Only `myClass` records are made, so the type-name check always passes on a live record.
- `mexLock` and `mexUnlock` become an integer counter. Unloading the module is not modelled.
- `mexErrMsgTxt` and `mexErrMsgIdAndTxt` end the call by a long jump. They are modelled as a `Failure` result, and error identifiers are not kept.
- The allocator is not modelled. The address of a new record is a parameter that may be any address not currently live.
- A record holds its object's value, not a reference to a separate object. No command changes a registered object in place, so nothing observable is lost. Aliasing between records cannot arise, and none is modelled.
- Values are `real`. IEEE rounding, NaN, infinities and signed zero are not modelled, and neither is display's `%f` formatting (display yields a `Shown` value instead of text).
- The two `else if (false)` alternatives at myFavDouble_mex.cpp:182-210 are dead code, and the gateway model does not follow them. The operations they call, `+=` (`PlusAssign`) and `plus_new_ptr` (`PlusNewPtr`), are modelled on their own.
- The `myClass` that `newFromMatlab` allocates before the buffer constructor fails is leaked in the program. The model has no allocation to leak.
- `isValid` writes an `int` into a 1-byte `uint8` array. The model returns the `uint8` flag the host reads.
- CommandText: counts the characters of the command, not its encoded bytes. `mxGetString` fails when the encoded text and its NUL do not fit 64 bytes, so a shorter string of non-ASCII characters that the program refuses with the command-string error is read as an (unrecognised) command by the model, which then fails with a later error. No state changes either way.
- A command string with an embedded NUL is compared by `strcmp` up to the NUL. The model compares whole strings.
- The MATLAB proxy class, and the saving and reloading of objects, are not part of this model.
