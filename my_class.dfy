/**
 * The wrapped value type (myClass): a scalar complex number held as a real
 * and an imaginary part. Fields are `real`, so rounding is not modelled.
 */
module MyClassModel {
  import opened Wrappers
  import opened Mex

  /** The two fields of an object, as a value. */
  datatype Value = Value(re: real, im: real)

  /** The state of a default-constructed object. */
  function Zero(): Value
  {
    Value(0.0, 0.0)
  }

  /** Componentwise sum: what operator+ computes. */
  function Add(a: Value, b: Value): Value
  {
    Value(a.re + b.re, a.im + b.im)
  }

  /** What display prints: the real part alone, or both parts. */
  datatype Shown = RealOnly(re: real) | RealAndImaginary(re: real, im: real)

  /** The value a reader recovers from a printed line; a missing imaginary part reads as 0. */
  function ReadShown(s: Shown): Value
  {
    match s
    case RealOnly(re) => Value(re, 0.0)
    case RealAndImaginary(re, im) => Value(re, im)
  }

  /** display: the imaginary part is printed exactly when it is non-zero, and nothing is lost. */
  function ShownOf(v: Value): (s: Shown)
    ensures s.RealOnly? <==> v.im == 0.0
    ensures ReadShown(s) == v
  {
    if v.im == 0.0 then RealOnly(v.re) else RealAndImaginary(v.re, v.im)
  }

  /**
   * toDouble: a 1x1 double array, complex exactly when the imaginary part
   * is non-zero; the real data holds the real part, the imaginary data (when
   * present) the imaginary part.
   */
  function DoubleArrayOf(v: Value): (a: MxArray)
    ensures WellFormed(a) && a.MxDouble? && a.dims == [1, 1]
    ensures IsComplex(a) <==> v.im != 0.0
    ensures a.pr == [v.re]
    ensures IsComplex(a) ==> a.pi.value == [v.im]
  {
    MxDouble([1, 1], [v.re], if v.im == 0.0 then None else Some([v.im]))
  }

  /** The value the buffer constructor reads from a double array, or its size error. */
  function BufferValue(b: MxArray): Result<Value, Error>
    requires b.MxDouble? && WellFormed(b)
  {
    if Rows(b) != 1 || Columns(b) != 1 then Failure(InvalidSize)
    else Success(Value(b.pr[0], if b.pi.Some? then b.pi.value[0] else 0.0))
  }

  /** Exporting a value and constructing from the export gives the value back. */
  lemma ExportThenImport(v: Value)
    ensures BufferValue(DoubleArrayOf(v)) == Success(v)
  {
  }

  /**
   * Constructing from a 1x1 buffer and exporting the result gives the
   * buffer back, unless the buffer is complex with a zero imaginary part
   * (the export of that value is real).
   */
  lemma ImportThenExport(b: MxArray)
    requires b.MxDouble? && WellFormed(b) && b.dims == [1, 1]
    requires b.pi.Some? ==> 0.0 !in b.pi.value
    ensures BufferValue(b).Success?
    ensures DoubleArrayOf(BufferValue(b).value) == b
  {
    assert Columns(b) == 1 by { assert b.dims[1..] == [1]; }
    assert Product(b.dims) == 1 by { assert Product(b.dims[1..]) == 1; }
    assert b.pi.Some? ==> b.pi.value == [b.pi.value[0]];
  }

  /** A myClass object. */
  class MyClass {
    var valueR: real
    var valueI: real

    /** The object's two fields as a value. */
    function Val(): Value
      reads this
    {
      Value(valueR, valueI)
    }

    /** Default constructor: both parts zero. */
    constructor ()
      ensures Val() == Zero()
    {
      valueR, valueI := 0.0, 0.0;
    }

    /** Copy constructor: both parts copied exactly; `a` is left as it was. */
    constructor Copy(a: MyClass)
      ensures Val() == a.Val()
    {
      valueR, valueI := a.valueR, a.valueI;
    }

    /** An object holding a given value: how the gateway rebuilds the object a record owns. */
    constructor FromValue(v: Value)
      ensures Val() == v
    {
      valueR, valueI := v.re, v.im;
    }

    /**
     * The body of the buffer constructor: fails with InvalidSize unless the
     * buffer is 1x1, otherwise copies the real entry, and the imaginary entry
     * when the buffer is complex (0 when it is real), through the column and
     * row loops.
     */
    static method ReadBuffer(b: MxArray) returns (r: Result<Value, Error>)
      requires b.MxDouble? && WellFormed(b)
      ensures r.Failure? <==> !(Rows(b) == 1 && Columns(b) == 1)
      ensures r.Failure? ==> r.error == InvalidSize
      ensures r.Success? ==> r.value.re == b.pr[0]
      ensures r.Success? ==> r.value.im == if b.pi.Some? then b.pi.value[0] else 0.0
      ensures r == BufferValue(b)
    {
      var m, n := Rows(b), Columns(b);
      var complex := b.pi.Some?;
      var valueR: real, valueI: real := 0.0, 0.0;
      if !complex {
        valueI := 0.0;
      }
      if m != 1 || n != 1 {
        return Failure(InvalidSize);
      }
      assert |b.pr| == 1 by { assert Product(b.dims) == m * n; }
      var offset := 0;  // how far the data pointers have advanced
      for j := 0 to n
        invariant offset == j * m
        invariant !complex ==> valueI == 0.0
        invariant offset > 0 ==> valueR == b.pr[offset - 1]
        invariant offset > 0 && complex ==> valueI == b.pi.value[offset - 1]
      {
        for i := 0 to m
          invariant !complex ==> valueI == 0.0
          invariant offset + i > 0 ==> valueR == b.pr[offset + i - 1]
          invariant offset + i > 0 && complex ==> valueI == b.pi.value[offset + i - 1]
        {
          valueR := b.pr[offset + i];
          if complex {
            valueI := b.pi.value[offset + i];
          }
        }
        offset := offset + m;
      }
      r := Success(Value(valueR, valueI));
    }

    /** toDouble: the array it returns is the export of the object's value. */
    method ToDouble() returns (out: MxArray)
      ensures out == DoubleArrayOf(Val())
    {
      var m, n := 1, 1;
      var complex := valueI != 0.0;
      var pointerR := new real[m * n];
      var pointerI := new real[if complex then m * n else 0];
      var offset := 0;  // how far the data pointers have advanced
      for j := 0 to n
        invariant offset == j * m
        invariant forall k :: 0 <= k < offset ==> pointerR[k] == valueR
        invariant complex ==> forall k :: 0 <= k < offset ==> pointerI[k] == valueI
      {
        for i := 0 to m
          invariant forall k :: 0 <= k < offset + i ==> pointerR[k] == valueR
          invariant complex ==> forall k :: 0 <= k < offset + i ==> pointerI[k] == valueI
        {
          pointerR[offset + i] := valueR;
          if complex {
            pointerI[offset + i] := valueI;
          }
        }
        offset := offset + m;
      }
      assert pointerR[..] == [valueR];
      assert complex ==> pointerI[..] == [valueI];
      out := MxDouble([m, n], pointerR[..], if complex then Some(pointerI[..]) else None);
    }

    /** operator+=: adds b into this object only; b is unchanged unless it is this object. */
    method PlusAssign(b: MyClass)
      modifies this
      ensures Val() == Add(old(Val()), old(b.Val()))
      ensures b != this ==> b.Val() == old(b.Val())
    {
      valueR := valueR + b.valueR;
      valueI := valueI + b.valueI;
    }

    /** operator+: the componentwise sum, built in a default-constructed temporary; neither operand changes. */
    method Plus(b: MyClass) returns (result: Value)
      ensures result.re == valueR + b.valueR && result.im == valueI + b.valueI
      ensures result == Add(Val(), b.Val())
    {
      var tmp := new MyClass();
      tmp.valueR := valueR + b.valueR;
      tmp.valueI := valueI + b.valueI;
      result := tmp.Val();
    }

    /** plus_new: the sum in a freshly allocated object, distinct from both operands, which do not change. */
    method PlusNew(b: MyClass) returns (result: MyClass)
      ensures fresh(result)
      ensures result.Val() == Add(Val(), b.Val())
    {
      result := new MyClass();
      result.valueR := valueR + b.valueR;
      result.valueI := valueI + b.valueI;
    }

    /** plus_new_ptr: delegates to plus_new, so it promises the same. */
    method PlusNewPtr(b: MyClass) returns (result: MyClass)
      ensures fresh(result)
      ensures result.Val() == Add(Val(), b.Val())
    {
      result := PlusNew(b);
    }
  }
}
