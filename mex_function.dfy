/**
 * The gateway the host calls (mexFunction): a command string, the input
 * arrays and the number of outputs expected; it routes to the registry and
 * the value type, checking argument counts along the way.
 */
module MexGateway {
  import opened Wrappers
  import opened Mex
  import opened MyClassModel
  import opened ClassHandle

  /** The commands the gateway recognises by exact string comparison. */
  datatype Command = New | NewFromMatlab | Delete | IsValidCommand | Display | Double | Plus | Unrecognized

  function CommandOf(text: string): Command
  {
    if text == "new" then New
    else if text == "newFromMatlab" then NewFromMatlab
    else if text == "delete" then Delete
    else if text == "isValid" then IsValidCommand
    else if text == "display" then Display
    else if text == "double" then Double
    else if text == "plus" then Plus
    else Unrecognized
  }

  /** What a successful call leaves for the host: an output array, a printed line, or nothing. */
  datatype Reply = Returned(out: MxArray) | Printed(shown: Shown) | NoReply

  /** The outcome of one call and the live values afterwards. */
  datatype Transition = Transition(result: Result<Reply, Error>, values: map<Word, Value>)

  function Fail(values: map<Word, Value>, e: Error): Transition
  {
    Transition(Failure(e), values)
  }

  predicate ArgsWellFormed(prhs: seq<MxArray>)
  {
    forall i | 0 <= i < |prhs| :: WellFormed(prhs[i])
  }

  /**
   * One gateway call on the live values: the reference the method below is
   * proved against. `addr` is where the allocator places a new record.
   */
  function Step(values: map<Word, Value>, nlhs: nat, prhs: seq<MxArray>, addr: Word): Transition
    requires ArgsWellFormed(prhs)
  {
    var nrhs := |prhs|;
    if nrhs < 1 || CommandText(prhs[0]).None? then Fail(values, CommandStringExpected)
    else
      var cmd := CommandOf(CommandText(prhs[0]).value);
      if cmd == New then StepNew(values, nlhs, prhs, addr)
      else if cmd == NewFromMatlab then StepNewFromMatlab(values, nlhs, prhs, addr)
      else if cmd == Delete then StepDelete(values, prhs)
      else StepOnInstance(values, cmd, nlhs, prhs, addr)
  }

  /** "new": a default object with no argument, a copy of the second input's object with one. */
  function StepNew(values: map<Word, Value>, nlhs: nat, prhs: seq<MxArray>, addr: Word): Transition
    requires ArgsWellFormed(prhs)
  {
    var nrhs := |prhs|;
    if nlhs != 1 then Fail(values, NewOneOutputExpected)
    else if nrhs <= 1 then Transition(Success(Returned(IdArray(addr))), values[addr := Zero()])
    else if nrhs == 2 then
      match HandleIn(values.Keys, prhs[1])
      case Failure(e) => Fail(values, e)
      case Success(h) => Transition(Success(Returned(IdArray(addr))), values[addr := values[h]])
    else Fail(values, NewTooManyArguments)
  }

  /** "newFromMatlab": checks counts, class and dimensions, then the buffer constructor. */
  function StepNewFromMatlab(values: map<Word, Value>, nlhs: nat, prhs: seq<MxArray>, addr: Word): Transition
    requires ArgsWellFormed(prhs)
  {
    if |prhs| != 2 then Fail(values, InvalidNumInputs)
    else if nlhs > 1 then Fail(values, TooManyOutputs)
    else if !prhs[1].MxDouble? then Fail(values, InputNotDouble)
    else if NumberOfDimensions(prhs[1]) != 2 then Fail(values, InputNot2D)
    else
      match BufferValue(prhs[1])
      case Failure(e) => Fail(values, e)
      case Success(v) => Transition(Success(Returned(IdArray(addr))), values[addr := v])
  }

  /** "delete": exactly one argument, destroyed after validation. */
  function StepDelete(values: map<Word, Value>, prhs: seq<MxArray>): Transition
    requires ArgsWellFormed(prhs)
  {
    if |prhs| != 2 then Fail(values, DeleteWrongArguments)
    else
      match HandleIn(values.Keys, prhs[1])
      case Failure(e) => Fail(values, e)
      case Success(h) => Transition(Success(NoReply), values - {h})
  }

  /**
   * Every other command: the second input is recovered before the command
   * is looked at; plus and unrecognised commands then recover the third.
   */
  function StepOnInstance(values: map<Word, Value>, cmd: Command, nlhs: nat, prhs: seq<MxArray>, addr: Word): Transition
    requires ArgsWellFormed(prhs)
  {
    var nrhs := |prhs|;
    if nrhs < 2 then Fail(values, SecondInputNotFound)
    else
      match HandleIn(values.Keys, prhs[1])
      case Failure(e) => Fail(values, e)
      case Success(h) =>
        if cmd == IsValidCommand then
          if nlhs < 1 || nrhs > 2 then Fail(values, IsValidUnexpectedArguments)
          else
            match ValidityIn(values.Keys, prhs[1])
            case Failure(e) => Fail(values, e)
            case Success(b) => Transition(Success(Returned(FlagArray(b))), values)
        else if cmd == Display then Transition(Success(Printed(ShownOf(values[h]))), values)
        else if cmd == Double then
          if nlhs != 1 then Fail(values, DoubleUnexpectedArguments)
          else Transition(Success(Returned(DoubleArrayOf(values[h]))), values)
        else if nrhs < 3 then Fail(values, ThirdInputMissing)
        else
          match HandleIn(values.Keys, prhs[2])
          case Failure(e) => Fail(values, e)
          case Success(h2) =>
            if cmd == Plus then
              if nlhs < 1 || nrhs < 2 then Fail(values, PlusUnexpectedArguments)
              else Transition(Success(Returned(IdArray(addr))), values[addr := Add(values[h], values[h2])])
            else Fail(values, CommandNotRecognized)
  }

  /**
   * mexFunction: one call from the host on the registry. Its outcome and
   * the live values afterwards are those of Step; a failed call changes
   * nothing; no live record is replaced, and only `addr` can become live.
   */
  method MexFunction(reg: Registry, nlhs: nat, prhs: seq<MxArray>, addr: Word) returns (r: Result<Reply, Error>)
    requires reg.Valid() && ArgsWellFormed(prhs)
    requires addr !in reg.LiveIds()
    modifies reg
    ensures reg.Valid()
    ensures Transition(r, reg.Values()) == Step(old(reg.Values()), nlhs, prhs, addr)
    ensures r.Failure? ==> reg.heap == old(reg.heap) && reg.locks == old(reg.locks)
    ensures forall a | a in reg.LiveIds() && a != addr :: a in old(reg.LiveIds()) && reg.heap[a] == old(reg.heap[a])
  {
    var nrhs := |prhs|;
    if nrhs < 1 || CommandText(prhs[0]).None? {
      return Failure(CommandStringExpected);
    }
    var cmd := CommandOf(CommandText(prhs[0]).value);
    if cmd == New {
      r := DoNew(reg, nlhs, prhs, addr);
    } else if cmd == NewFromMatlab {
      r := DoNewFromMatlab(reg, nlhs, prhs, addr);
    } else if cmd == Delete {
      r := DoDelete(reg, prhs);
    } else {
      r := DoOnInstance(reg, cmd, nlhs, prhs, addr);
    }
  }

  method DoNew(reg: Registry, nlhs: nat, prhs: seq<MxArray>, addr: Word) returns (r: Result<Reply, Error>)
    requires reg.Valid() && ArgsWellFormed(prhs) && |prhs| >= 1
    requires addr !in reg.LiveIds()
    modifies reg
    ensures reg.Valid()
    ensures Transition(r, reg.Values()) == StepNew(old(reg.Values()), nlhs, prhs, addr)
    ensures r.Failure? ==> reg.heap == old(reg.heap) && reg.locks == old(reg.locks)
    ensures forall a | a in reg.LiveIds() && a != addr :: a in old(reg.LiveIds()) && reg.heap[a] == old(reg.heap[a])
  {
    var nrhs := |prhs|;
    if nlhs != 1 {
      return Failure(NewOneOutputExpected);
    }
    if nrhs == 1 {
      var obj := new MyClass();
      var id := reg.CreateId(obj.Val(), addr);
      r := Success(Returned(id));
    } else if nrhs == 2 {
      var found := reg.RecoverObj(prhs[1]);
      if found.Failure? {
        return Failure(found.error);
      }
      var source := new MyClass.FromValue(found.value);  // the object the record owns
      var copied := new MyClass.Copy(source);
      var id := reg.CreateId(copied.Val(), addr);
      r := Success(Returned(id));
    } else {
      r := Failure(NewTooManyArguments);
    }
  }

  method DoNewFromMatlab(reg: Registry, nlhs: nat, prhs: seq<MxArray>, addr: Word) returns (r: Result<Reply, Error>)
    requires reg.Valid() && ArgsWellFormed(prhs)
    requires addr !in reg.LiveIds()
    modifies reg
    ensures reg.Valid()
    ensures Transition(r, reg.Values()) == StepNewFromMatlab(old(reg.Values()), nlhs, prhs, addr)
    ensures r.Failure? ==> reg.heap == old(reg.heap) && reg.locks == old(reg.locks)
    ensures forall a | a in reg.LiveIds() && a != addr :: a in old(reg.LiveIds()) && reg.heap[a] == old(reg.heap[a])
  {
    if |prhs| != 2 {
      return Failure(InvalidNumInputs);
    }
    if nlhs > 1 {
      return Failure(TooManyOutputs);
    }
    if !prhs[1].MxDouble? {
      return Failure(InputNotDouble);
    }
    if NumberOfDimensions(prhs[1]) != 2 {
      return Failure(InputNot2D);
    }
    var read := MyClass.ReadBuffer(prhs[1]);
    if read.Failure? {
      return Failure(read.error);
    }
    var id := reg.CreateId(read.value, addr);
    r := Success(Returned(id));
  }

  method DoDelete(reg: Registry, prhs: seq<MxArray>) returns (r: Result<Reply, Error>)
    requires reg.Valid() && ArgsWellFormed(prhs)
    modifies reg
    ensures reg.Valid()
    ensures Transition(r, reg.Values()) == StepDelete(old(reg.Values()), prhs)
    ensures r.Failure? ==> reg.heap == old(reg.heap) && reg.locks == old(reg.locks)
    ensures forall a | a in reg.LiveIds() :: a in old(reg.LiveIds()) && reg.heap[a] == old(reg.heap[a])
  {
    if |prhs| != 2 {
      return Failure(DeleteWrongArguments);
    }
    var done := reg.Destroy(prhs[1]);
    if done.Failure? {
      return Failure(done.error);
    }
    r := Success(NoReply);
  }

  method DoOnInstance(reg: Registry, cmd: Command, nlhs: nat, prhs: seq<MxArray>, addr: Word) returns (r: Result<Reply, Error>)
    requires reg.Valid() && ArgsWellFormed(prhs)
    requires addr !in reg.LiveIds()
    modifies reg
    ensures reg.Valid()
    ensures Transition(r, reg.Values()) == StepOnInstance(old(reg.Values()), cmd, nlhs, prhs, addr)
    ensures r.Failure? ==> reg.heap == old(reg.heap) && reg.locks == old(reg.locks)
    ensures forall a | a in reg.LiveIds() && a != addr :: a in old(reg.LiveIds()) && reg.heap[a] == old(reg.heap[a])
  {
    var nrhs := |prhs|;
    if nrhs < 2 {
      return Failure(SecondInputNotFound);
    }
    var found := reg.RecoverObj(prhs[1]);
    if found.Failure? {
      return Failure(found.error);
    }
    var instance := new MyClass.FromValue(found.value);  // the object the record owns

    if cmd == IsValidCommand {
      if nlhs < 1 || nrhs > 2 {
        return Failure(IsValidUnexpectedArguments);
      }
      match reg.CheckValidity(prhs[1])
      case Failure(e) =>
        return Failure(e);
      case Success(validity) =>
        return Success(Returned(FlagArray(validity)));
    }

    if cmd == Display {
      return Success(Printed(ShownOf(instance.Val())));
    }

    if cmd == Double {
      if nlhs != 1 {
        return Failure(DoubleUnexpectedArguments);
      }
      var out := instance.ToDouble();
      return Success(Returned(out));
    }

    if nrhs < 3 {
      return Failure(ThirdInputMissing);
    }
    var found2 := reg.RecoverObj(prhs[2]);
    if found2.Failure? {
      return Failure(found2.error);
    }
    var instance2 := new MyClass.FromValue(found2.value);

    if cmd == Plus {
      if nlhs < 1 || nrhs < 2 {
        return Failure(PlusUnexpectedArguments);
      }
      var result := instance.PlusNew(instance2);
      var id := reg.CreateId(result.Val(), addr);
      return Success(Returned(id));
    }

    r := Failure(CommandNotRecognized);
  }

  /** A call without inputs, or whose first input is not a short enough string, fails before anything else. */
  lemma CommandStringCheckedFirst(values: map<Word, Value>, nlhs: nat, prhs: seq<MxArray>, addr: Word)
    requires ArgsWellFormed(prhs)
    requires |prhs| == 0 || !prhs[0].MxChar? || |prhs[0].text| >= 64
    ensures Step(values, nlhs, prhs, addr) == Fail(values, CommandStringExpected)
  {
  }

  /** Every error leaves the live values exactly as they were. */
  lemma FailureChangesNothing(values: map<Word, Value>, nlhs: nat, prhs: seq<MxArray>, addr: Word)
    requires ArgsWellFormed(prhs)
    ensures Step(values, nlhs, prhs, addr).result.Failure? ==> Step(values, nlhs, prhs, addr).values == values
  {
  }

  /**
   * "new" wants exactly one output. With no argument it registers a default
   * object at the new address; with one it registers a copy of the object
   * behind it and leaves that object as it was; with more it fails.
   */
  lemma NewRegistersDefaultOrCopy(values: map<Word, Value>, nlhs: nat, args: seq<MxArray>, addr: Word)
    requires ArgsWellFormed([MxChar("new")] + args)
    requires addr !in values
    ensures var t := Step(values, nlhs, [MxChar("new")] + args, addr);
      && (nlhs != 1 ==> t == Fail(values, NewOneOutputExpected))
      && (nlhs == 1 && args == [] ==>
            t.result == Success(Returned(IdArray(addr))) && t.values == values[addr := Zero()])
      && (nlhs == 1 && |args| == 1 ==>
            (t.result.Success? <==> IsRealUInt64Scalar(args[0]) && IdOf(args[0]) in values))
      && (nlhs == 1 && |args| == 1 && t.result.Success? ==>
            && t.result == Success(Returned(IdArray(addr)))
            && addr != IdOf(args[0])
            && t.values == values[addr := values[IdOf(args[0])]])
      && (nlhs == 1 && |args| > 1 ==> t == Fail(values, NewTooManyArguments))
  {
  }

  /**
   * "newFromMatlab" fails unless there are exactly two inputs, at most one
   * output, and a two-dimensional 1x1 double argument; when it succeeds
   * exactly one handle, the new one, becomes live.
   */
  lemma NewFromMatlabAddsOne(values: map<Word, Value>, nlhs: nat, prhs: seq<MxArray>, addr: Word)
    requires ArgsWellFormed(prhs) && |prhs| >= 1 && prhs[0] == MxChar("newFromMatlab")
    requires addr !in values
    ensures var t := Step(values, nlhs, prhs, addr);
      && (t.result.Success? <==>
            |prhs| == 2 && nlhs <= 1 && prhs[1].MxDouble? && prhs[1].dims == [1, 1])
      && (t.result.Success? ==>
            && t.values.Keys == values.Keys + {addr}
            && |t.values| == |values| + 1
            && t.values[addr] == BufferValue(prhs[1]).value)
  {
    var t := Step(values, nlhs, prhs, addr);
    if |prhs| == 2 && nlhs <= 1 && prhs[1].MxDouble? && NumberOfDimensions(prhs[1]) == 2 {
      var b := prhs[1];
      assert Columns(b) == b.dims[1] by {
        assert b.dims[1..][1..] == [];
        assert Product(b.dims[1..]) == b.dims[1] * Product([]);
      }
      assert b.dims == [1, 1] <==> (Rows(b) == 1 && Columns(b) == 1) by {
        if Rows(b) == 1 && Columns(b) == 1 {
          assert b.dims == [b.dims[0], b.dims[1]];
        }
      }
    }
    if t.result.Success? {
      assert t.values == values[addr := t.values[addr]];
    }
  }

  /**
   * "delete" fails unless there are exactly two inputs; with two it succeeds
   * exactly when the second names a live handle. Afterwards that handle is
   * no longer live, the validity check says so, and a second delete of it
   * fails with HandleNotValid rather than doing nothing.
   */
  lemma DeleteInvalidates(values: map<Word, Value>, nlhs: nat, prhs: seq<MxArray>, addr: Word, addr2: Word)
    requires ArgsWellFormed(prhs) && |prhs| >= 1 && prhs[0] == MxChar("delete")
    ensures |prhs| != 2 ==> Step(values, nlhs, prhs, addr) == Fail(values, DeleteWrongArguments)
    ensures |prhs| == 2 ==>
      (Step(values, nlhs, prhs, addr).result.Success? <==> IsRealUInt64Scalar(prhs[1]) && IdOf(prhs[1]) in values)
    ensures var t := Step(values, nlhs, prhs, addr);
      t.result.Success? ==>
        && t.result == Success(NoReply)
        && t.values == values - {IdOf(prhs[1])}
        && ValidityIn(t.values.Keys, prhs[1]) == Success(false)
        && Step(t.values, nlhs, prhs, addr2) == Fail(t.values, HandleNotValid)
  {
  }

  /**
   * Every command other than the three creating or deleting ones needs a
   * second input, and recovers it before it looks at the command.
   */
  lemma SecondInputRequired(values: map<Word, Value>, nlhs: nat, prhs: seq<MxArray>, addr: Word)
    requires ArgsWellFormed(prhs) && |prhs| >= 1 && prhs[0].MxChar? && |prhs[0].text| < 64
    requires CommandOf(prhs[0].text) !in {New, NewFromMatlab, Delete}
    ensures |prhs| == 1 ==> Step(values, nlhs, prhs, addr) == Fail(values, SecondInputNotFound)
    ensures |prhs| >= 2 && !IsRealUInt64Scalar(prhs[1]) ==>
      Step(values, nlhs, prhs, addr) == Fail(values, NotRealUInt64Scalar)
    ensures |prhs| >= 2 && IsRealUInt64Scalar(prhs[1]) && IdOf(prhs[1]) !in values ==>
      Step(values, nlhs, prhs, addr) == Fail(values, HandleNotValid)
  {
  }

  /**
   * isValid recovers its argument before it answers: it never answers 0. A
   * well-formed identifier that is not live makes it fail with
   * HandleNotValid; a live one, with an output and no further input, is
   * answered 1; it changes no value.
   */
  lemma IsValidNeverAnswersFalse(values: map<Word, Value>, nlhs: nat, prhs: seq<MxArray>, addr: Word)
    requires ArgsWellFormed(prhs) && |prhs| >= 1 && prhs[0] == MxChar("isValid")
    ensures var t := Step(values, nlhs, prhs, addr);
      && t.values == values
      && (t.result.Success? ==> t.result.value == Returned(FlagArray(true)))
      && (|prhs| >= 2 && IsRealUInt64Scalar(prhs[1]) && IdOf(prhs[1]) !in values ==>
            t.result == Failure(HandleNotValid))
      && (|prhs| >= 2 && IsRealUInt64Scalar(prhs[1]) && IdOf(prhs[1]) in values ==>
            (t.result.Success? <==> nlhs >= 1 && |prhs| == 2)
            && (t.result.Failure? ==> t.result.error == IsValidUnexpectedArguments))
  {
  }

  /**
   * display, double and isValid create and destroy nothing and change no
   * value. On a live second input display always succeeds and shows its
   * value; double succeeds exactly when one output is expected, and then
   * exports that value.
   */
  lemma QueriesChangeNothing(values: map<Word, Value>, nlhs: nat, prhs: seq<MxArray>, addr: Word)
    requires ArgsWellFormed(prhs) && |prhs| >= 1
    requires prhs[0] in {MxChar("display"), MxChar("double"), MxChar("isValid")}
    ensures var t := Step(values, nlhs, prhs, addr);
      && t.values == values
      && (t.result.Success? ==> IsRealUInt64Scalar(prhs[1]) && IdOf(prhs[1]) in values)
    ensures |prhs| >= 2 && IsRealUInt64Scalar(prhs[1]) && IdOf(prhs[1]) in values ==>
      var v := values[IdOf(prhs[1])];
      var t := Step(values, nlhs, prhs, addr);
      && (prhs[0] == MxChar("display") ==> t == Transition(Success(Printed(ShownOf(v))), values))
      && (prhs[0] == MxChar("double") && nlhs == 1 ==>
            t == Transition(Success(Returned(DoubleArrayOf(v))), values))
      && (prhs[0] == MxChar("double") && nlhs != 1 ==> t == Fail(values, DoubleUnexpectedArguments))
  {
  }

  /**
   * plus succeeds exactly when there are three inputs, an output is
   * expected and both operands are live. It then registers one new handle
   * whose value is the componentwise sum of the operands; both operands
   * stay live and unchanged.
   */
  lemma PlusAddsOneHandle(values: map<Word, Value>, nlhs: nat, prhs: seq<MxArray>, addr: Word)
    requires ArgsWellFormed(prhs) && |prhs| >= 1 && prhs[0] == MxChar("plus")
    requires addr !in values
    ensures Step(values, nlhs, prhs, addr).result.Success? <==>
      && |prhs| >= 3 && nlhs >= 1
      && IsRealUInt64Scalar(prhs[1]) && IdOf(prhs[1]) in values
      && IsRealUInt64Scalar(prhs[2]) && IdOf(prhs[2]) in values
    ensures Step(values, nlhs, prhs, addr).result.Success? ==>
      var a, b := IdOf(prhs[1]), IdOf(prhs[2]);
      && addr != a && addr != b
      && Step(values, nlhs, prhs, addr).result == Success(Returned(IdArray(addr)))
      && Step(values, nlhs, prhs, addr).values == values[addr := Add(values[a], values[b])]
  {
  }

  /**
   * plus and unrecognised commands read the third input before any check
   * that it exists: with two inputs and a live second one they reach
   * ThirdInputMissing, never plus's own argument error. So three inputs are
   * needed; given them, an unrecognised command with two live operands ends
   * in CommandNotRecognized.
   */
  lemma ThirdInputReadFirst(values: map<Word, Value>, nlhs: nat, prhs: seq<MxArray>, addr: Word)
    requires ArgsWellFormed(prhs) && |prhs| >= 2 && prhs[0].MxChar? && |prhs[0].text| < 64
    requires CommandOf(prhs[0].text) in {Plus, Unrecognized}
    requires IsRealUInt64Scalar(prhs[1]) && IdOf(prhs[1]) in values
    ensures |prhs| == 2 ==> Step(values, nlhs, prhs, addr) == Fail(values, ThirdInputMissing)
    ensures Step(values, nlhs, prhs, addr).result != Failure(PlusUnexpectedArguments) || nlhs == 0
    ensures |prhs| >= 3 && IsRealUInt64Scalar(prhs[2]) && IdOf(prhs[2]) in values ==>
      (CommandOf(prhs[0].text) == Unrecognized ==>
         Step(values, nlhs, prhs, addr) == Fail(values, CommandNotRecognized))
  {
  }

  /**
   * A copy made by "new" is independent of its source: deleting the source
   * afterwards leaves the copy live with the value it was given.
   */
  lemma CopyOutlivesSource(values: map<Word, Value>, id: MxArray, addr: Word, addr2: Word)
    requires WellFormed(id) && IsRealUInt64Scalar(id) && IdOf(id) in values
    requires addr !in values
    ensures var made := Step(values, 1, [MxChar("new"), id], addr);
      var gone := Step(made.values, 0, [MxChar("delete"), id], addr2);
      && made.result == Success(Returned(IdArray(addr)))
      && gone.result == Success(NoReply)
      && IdOf(id) !in gone.values
      && addr in gone.values && gone.values[addr] == values[IdOf(id)]
  {
  }

  /**
   * Nothing stops the allocator from placing a new record where a destroyed
   * one was: the identifier of a deleted handle then becomes valid again and
   * names the new object.
   */
  lemma DeletedIdCanComeBack(values: map<Word, Value>, h: Word, addr: Word)
    requires h in values
    ensures var gone := Step(values, 0, [MxChar("delete"), IdArray(h)], addr);
      var again := Step(gone.values, 1, [MxChar("new")], h);
      && gone.result == Success(NoReply) && h !in gone.values
      && again.result == Success(Returned(IdArray(h)))
      && again.values[h] == Zero()
      && Step(again.values, 1, [MxChar("isValid"), IdArray(h)], addr).result == Success(Returned(FlagArray(true)))
  {
  }

  /**
   * A run: a default object, 3.5 and 2.5 + 1i from the host, their sum
   * exported as 6 + 1i; a 2x2 matrix is refused with InvalidSize.
   */
  lemma SampleSession()
    ensures var s1 := Step(map[], 1, [MxChar("new")], 1);
      var s2 := Step(s1.values, 1, [MxChar("newFromMatlab"), MxDouble([1, 1], [3.5], None)], 2);
      var s3 := Step(s2.values, 1, [MxChar("newFromMatlab"), MxDouble([1, 1], [2.5], Some([1.0]))], 3);
      var s4 := Step(s3.values, 1, [MxChar("plus"), IdArray(2), IdArray(3)], 4);
      var s5 := Step(s4.values, 1, [MxChar("double"), IdArray(4)], 5);
      && s1.values == map[1 := Zero()]
      && s4.result == Success(Returned(IdArray(4)))
      && s5.result == Success(Returned(MxDouble([1, 1], [6.0], Some([1.0]))))
      && s5.values.Keys == {1, 2, 3, 4}
    ensures Step(map[], 1, [MxChar("newFromMatlab"), MxDouble([2, 2], [1.0, 2.0, 3.0, 4.0], None)], 1)
      == Fail(map[], InvalidSize)
  {
  }
}
