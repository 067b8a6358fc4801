/**
 * The host's array values (mxArray) as the gateway sees them, reduced to
 * what it inspects: class, dimensions, real and imaginary data, and the
 * text of a character array. Also the errors the gateway raises.
 */
module Mex {
  import opened Wrappers

  /** An unsigned 64-bit word: the element type of a uint64 array. */
  type Word = x: int | 0 <= x < 0x1_0000_0000_0000_0000

  /** An array handed over by the host, by class. */
  datatype MxArray =
    | MxChar(text: string)
    | MxDouble(dims: seq<nat>, pr: seq<real>, pi: Option<seq<real>>)
    | MxUInt64(dims: seq<nat>, complex: bool, words: seq<Word>)
    | MxUInt8(dims: seq<nat>, bytes: seq<nat>)
    | MxOther(dims: seq<nat>)

  function Product(s: seq<nat>): nat
  {
    if s == [] then 1 else s[0] * Product(s[1..])
  }

  /** mxGetNumberOfElements */
  function NumberOfElements(a: MxArray): nat
  {
    if a.MxChar? then |a.text| else Product(a.dims)
  }

  /** mxGetNumberOfDimensions */
  function NumberOfDimensions(a: MxArray): nat
  {
    if a.MxChar? then 2 else |a.dims|
  }

  /** mxGetM: the number of rows. */
  function Rows(a: MxArray): nat
    requires !a.MxChar? && |a.dims| >= 2
  {
    a.dims[0]
  }

  /** mxGetN: the number of columns, all trailing dimensions folded together. */
  function Columns(a: MxArray): nat
    requires !a.MxChar? && |a.dims| >= 2
  {
    Product(a.dims[1..])
  }

  /** What the host guarantees of every array: at least two dimensions, data of the right length. */
  predicate WellFormed(a: MxArray)
  {
    match a
    case MxChar(_) => true
    case MxDouble(dims, pr, pi) =>
      |dims| >= 2 && |pr| == Product(dims) && (pi.Some? ==> |pi.value| == Product(dims))
    case MxUInt64(dims, _, words) => |dims| >= 2 && |words| == Product(dims)
    case MxUInt8(dims, bytes) => |dims| >= 2 && |bytes| == Product(dims)
    case MxOther(dims) => |dims| >= 2
  }

  /** mxIsComplex */
  predicate IsComplex(a: MxArray)
  {
    (a.MxDouble? && a.pi.Some?) || (a.MxUInt64? && a.complex)
  }

  /** The shape every handle identifier must have: one real uint64 element. */
  predicate IsRealUInt64Scalar(a: MxArray)
  {
    NumberOfElements(a) == 1 && a.MxUInt64? && !IsComplex(a)
  }

  /** The identifier array handed back to the host: a 1x1 real uint64 holding w. */
  function IdArray(w: Word): (a: MxArray)
    ensures WellFormed(a) && IsRealUInt64Scalar(a) && a.words == [w]
  {
    MxUInt64([1, 1], false, [w])
  }

  /** A 1x1 uint8 array holding one flag, as isValid answers. */
  function FlagArray(b: bool): (a: MxArray)
    ensures WellFormed(a) && a.MxUInt8? && a.dims == [1, 1]
    ensures a.bytes[0] == 1 <==> b
    ensures a.bytes[0] == 0 <==> !b
  {
    MxUInt8([1, 1], [if b then 1 else 0])
  }

  /**
   * mxGetString into a buffer of 64 characters: it fails unless the array
   * is a character array whose text and terminating NUL fit.
   */
  function CommandText(a: MxArray): (r: Option<string>)
    ensures r.Some? <==> a.MxChar? && |a.text| < 64
    ensures r.Some? ==> r.value == a.text
  {
    if a.MxChar? && |a.text| < 64 then Some(a.text) else None
  }

  /** The errors the gateway raises; each ends the call. */
  datatype Error =
    | CommandStringExpected
    | NewOneOutputExpected
    | NewTooManyArguments
    | InvalidNumInputs
    | TooManyOutputs
    | InputNotDouble
    | InputNot2D
    | InvalidSize
    | DeleteWrongArguments
    | SecondInputNotFound
    | NotRealUInt64Scalar
    | HandleNotValid
    | IsValidUnexpectedArguments
    | DoubleUnexpectedArguments
    | PlusUnexpectedArguments
    | CommandNotRecognized
      /** Not raised by the program: it reads a third input the host did not pass (undefined behaviour). */
    | ThirdInputMissing

  /** The text the host shows for each error. */
  function Message(e: Error): (m: string)
    ensures m == "" <==> e == ThirdInputMissing
  {
    match e
    case CommandStringExpected => "First input should be a command string less than 64 characters long."
    case NewOneOutputExpected => "New: One output expected."
    case NewTooManyArguments => "New: Too many arguments."
    case InvalidNumInputs => "One input argument required."
    case TooManyOutputs => "Too many output arguments."
    case InputNotDouble => "Input argument must be of type double."
    case InputNot2D => "Input argument must be two dimensional\n"
    case InvalidSize => "Size [1 1] expected."
    case DeleteWrongArguments => "Delete: Wrong number of arguments."
    case SecondInputNotFound => "Second input not found."
    case NotRealUInt64Scalar => "Input must be a real uint64 scalar."
    case HandleNotValid => "Handle not valid."
    case IsValidUnexpectedArguments => "isValid: Unexpected arguments."
    case DoubleUnexpectedArguments => "double: Unexpected arguments."
    case PlusUnexpectedArguments => "plus: Unexpected arguments."
    case CommandNotRecognized => "Command not recognized."
    case ThirdInputMissing => ""
  }
}
