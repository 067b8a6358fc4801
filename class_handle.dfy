/**
 * The handle registry: class_handle records that own a myClass object,
 * identified towards the host by their address, and the module lock count.
 * The process heap is abstracted as a map from address to slot; a slot is a
 * live record or memory that a record occupied and that has been freed.
 * A record holds its owned object's value: no command changes a registered
 * object in place, so the value is all that can be observed of it.
 */
module ClassHandle {
  import opened Wrappers
  import opened Mex
  import opened MyClassModel

  /** The word every live record carries. */
  const CLASS_HANDLE_SIGNATURE: int := 0xB20F1D58

  /** The type name a record stores; only myClass records are ever made by this program. */
  datatype TypeName = MyClassName | OtherTypeName(name: string)

  /** One heap slot: a class_handle record (signature, type name, owned object), or freed memory. */
  datatype Slot = Live(signature: int, name: TypeName, obj: Value) | Freed

  /** The signature a read of the slot finds; freed memory reads as the 0 the destructor left. */
  function SignatureOf(h: Slot): int
  {
    if h.Live? then h.signature else 0
  }

  /** class_handle::isValid: the signature and the type name both match. */
  predicate IsValid(h: Slot): (b: bool)
    ensures b <==> h.Live? && h == Live(CLASS_HANDLE_SIGNATURE, MyClassName, h.obj)
  {
    SignatureOf(h) == CLASS_HANDLE_SIGNATURE && h.Live? && h.name == MyClassName
  }

  /** The class_handle constructor: a record owning obj that is valid from the start. */
  function NewHandle(obj: Value): (h: Slot)
    ensures IsValid(h)
    ensures h.Live? && h.obj == obj
  {
    Live(CLASS_HANDLE_SIGNATURE, MyClassName, obj)
  }

  /**
   * The class_handle destructor: clears the signature; its owned object is
   * deleted with it. The cleared record is no longer valid and reads like
   * freed memory.
   */
  function Destruct(h: Slot): (d: Slot)
    requires h.Live?
    ensures !IsValid(d) && SignatureOf(d) == SignatureOf(Freed)
  {
    h.(signature := 0)
  }

  /** The id a well-formed identifier array carries. */
  function IdOf(a: MxArray): Word
    requires WellFormed(a) && IsRealUInt64Scalar(a)
  {
    assert |a.words| == 1;
    a.words[0]
  }

  /**
   * convertMat2HandlePtr over the set of live ids: a malformed identifier and
   * an id that is not live are errors, in that order; otherwise the id.
   */
  function HandleIn(live: set<Word>, a: MxArray): (r: Result<Word, Error>)
    requires WellFormed(a)
    ensures !IsRealUInt64Scalar(a) ==> r == Failure(NotRealUInt64Scalar)
    ensures IsRealUInt64Scalar(a) ==> (r.Success? <==> IdOf(a) in live)
    ensures r.Success? ==> r.value == IdOf(a)
    ensures r.Failure? && IsRealUInt64Scalar(a) ==> r.error == HandleNotValid
  {
    if !IsRealUInt64Scalar(a) then Failure(NotRealUInt64Scalar)
    else if IdOf(a) in live then Success(IdOf(a))
    else Failure(HandleNotValid)
  }

  /** checkValidity over the set of live ids: an error only for a malformed identifier. */
  function ValidityIn(live: set<Word>, a: MxArray): (r: Result<bool, Error>)
    requires WellFormed(a)
    ensures r.Failure? <==> !IsRealUInt64Scalar(a)
    ensures r.Failure? ==> r.error == NotRealUInt64Scalar
    ensures r.Success? ==> (r.value <==> IdOf(a) in live)
  {
    if !IsRealUInt64Scalar(a) then Failure(NotRealUInt64Scalar)
    else Success(IdOf(a) in live)
  }

  /** The heap of class_handle records and the count of mexLock calls not yet undone. */
  class Registry {
    var heap: map<Word, Slot>
    var locks: int

    /** The addresses of the records not yet destroyed. */
    function LiveIds(): set<Word>
      reads this
    {
      set a | a in heap && heap[a].Live?
    }

    /** The registry invariant: every live record is valid and the lock count is their number. */
    ghost predicate Valid()
      reads this
    {
      && locks == |LiveIds()|
      && (forall a | a in heap && heap[a].Live? :: IsValid(heap[a]))
    }

    /** The object behind each live id. */
    function Values(): (m: map<Word, Value>)
      reads this
      ensures m.Keys == LiveIds()
    {
      map a | a in heap && heap[a].Live? :: heap[a].obj
    }

    /** A module with no records and no locks. */
    constructor ()
      ensures Valid()
      ensures heap == map[] && locks == 0
    {
      heap, locks := map[], 0;
    }

    /**
     * createMatlabIdFromPtr / createMatlabIdFromObj: lock once, place a new
     * record owning obj at the address the allocator returns, and hand back
     * that address as a 1x1 uint64 identifier. The allocator never returns
     * the address of a live record; it may return a freed one.
     */
    method CreateId(obj: Value, addr: Word) returns (id: MxArray)
      requires Valid()
      requires addr !in LiveIds()
      modifies this
      ensures Valid()
      ensures heap == old(heap)[addr := NewHandle(obj)] && locks == old(locks) + 1
      ensures LiveIds() == old(LiveIds()) + {addr}
      ensures Values() == old(Values())[addr := obj]
      ensures id == IdArray(addr)
      ensures RecoverObj(id) == Success(obj)
    {
      ghost var oldLive := LiveIds();
      locks := locks + 1;
      heap := heap[addr := NewHandle(obj)];
      assert LiveIds() == oldLive + {addr};
      id := IdArray(addr);
    }

    /**
     * convertMat2HandlePtr: an identifier that is not a real uint64 scalar
     * is an error; so is one whose record is not valid (a never-used address
     * reads as not valid). Otherwise the record's address, nothing changed.
     */
    function Convert(a: MxArray): (r: Result<Word, Error>)
      requires WellFormed(a)
      reads this
      ensures r.Success? ==> r.value in heap && IsValid(heap[r.value])
      ensures Valid() ==> r == HandleIn(LiveIds(), a)
    {
      if !IsRealUInt64Scalar(a) then Failure(NotRealUInt64Scalar)
      else if IdOf(a) in heap && IsValid(heap[IdOf(a)]) then Success(IdOf(a))
      else Failure(HandleNotValid)
    }

    /**
     * recoverPtrFromMatlabId / recoverObjFromMatlabId: the object owned by
     * the record Convert accepts, with Convert's errors; it is the object of
     * a live record, never that of a destroyed one.
     */
    function RecoverObj(a: MxArray): (r: Result<Value, Error>)
      requires WellFormed(a)
      reads this
      ensures r.Success? <==> Convert(a).Success?
      ensures r.Failure? ==> r.error == Convert(a).error
      ensures r.Success? ==> IdOf(a) in Values() && r.value == Values()[IdOf(a)]
    {
      match Convert(a)
      case Failure(e) => Failure(e)
      case Success(w) => Success(heap[w].obj)
    }

    /**
     * destroyObject: validate first, so a malformed or dead identifier is an
     * error and changes nothing; otherwise run the destructor, free the
     * record (and the object it owns) and unlock once.
     */
    method Destroy(a: MxArray) returns (r: Result<(), Error>)
      requires Valid() && WellFormed(a)
      modifies this
      ensures Valid()
      ensures r.Failure? <==> old(Convert(a)).Failure?
      ensures r.Failure? ==> r.error == old(Convert(a)).error
      ensures r.Failure? ==> heap == old(heap) && locks == old(locks)
      ensures r.Success? ==> IsRealUInt64Scalar(a) && IdOf(a) in old(LiveIds())
      ensures r.Success? ==> heap == old(heap)[IdOf(a) := Freed] && locks == old(locks) - 1
      ensures r.Success? ==> LiveIds() == old(LiveIds()) - {IdOf(a)}
      ensures r.Success? ==> Values() == old(Values()) - {IdOf(a)}
    {
      match Convert(a)
      case Failure(e) =>
        return Failure(e);
      case Success(w) =>
        ghost var oldLive := LiveIds();
        var cleared := Destruct(heap[w]);
        heap := heap[w := cleared];
        heap := heap[w := Freed];
        assert LiveIds() == oldLive - {w};
        locks := locks - 1;
        r := Success(());
    }

    /**
     * checkValidity: an error only for an identifier that is not a real
     * uint64 scalar; otherwise whether its record is valid, nothing changed.
     */
    function CheckValidity(a: MxArray): (r: Result<bool, Error>)
      requires WellFormed(a)
      reads this
      ensures r.Failure? <==> !IsRealUInt64Scalar(a)
      ensures Valid() ==> r == ValidityIn(LiveIds(), a)
    {
      if !IsRealUInt64Scalar(a) then Failure(NotRealUInt64Scalar)
      else Success(IdOf(a) in heap && IsValid(heap[IdOf(a)]))
    }
  }
}
