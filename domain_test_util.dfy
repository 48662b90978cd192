/** Test doubles shared by the domain tests (src/domain/test_util.rs): the connectivity
    switch of the in-memory ports and the recording mock `FakeImplementation`. */
module DomainTestUtil {
  import opened Wrappers
  import Anyhow

  /** The message of the error a disconnected port reports. */
  const DisconnectedMessage: string := "could not connect to service!"

  /** Whether a mocked driven port is reachable. */
  datatype Connectivity = Connected | Disconnected

  /** `blow_up_if_disconnected` */
  function BlowUpIfDisconnected(c: Connectivity): (r: Result<(), Anyhow.Error>)
    ensures r.Ok? <==> c.Connected?
    ensures r.Err? ==> r.error == Anyhow.Msg(DisconnectedMessage)
  {
    match c
    case Connected => Ok(())
    case Disconnected => Err(Anyhow.Msg(DisconnectedMessage))
  }

  /** The mock's panic: a return value was read before one was configured. */
  datatype MockPanic = ReturnValueUnset

  /** `FakeImplementation<Args, Ret>`: the arguments of every call, in call order, and
      the configured return value. */
  class FakeImplementation<Args, Ret> {
    var savedArguments: seq<Args>
    var returnValue: Option<Ret>

    /** `new`: no calls saved, no return value configured. */
    constructor ()
      ensures savedArguments == [] && returnValue == None
    {
      savedArguments := [];
      returnValue := None;
    }

    /** `save_arguments` records one more call and leaves the return value alone. */
    method SaveArguments(arguments: Args)
      modifies this
      ensures savedArguments == old(savedArguments) + [arguments]
      ensures returnValue == old(returnValue)
    {
      savedArguments := savedArguments + [arguments];
    }

    /** `calls` */
    function Calls(): (r: seq<Args>)
      reads this
      ensures r == savedArguments
    {
      savedArguments
    }

    /** `set_return_value`: the next reads give `value`; saved calls are kept. */
    method SetReturnValue(value: Ret)
      modifies this
      ensures savedArguments == old(savedArguments)
      ensures ReturnValue() == Ok(value)
    {
      returnValue := Some(value);
    }

    /** `return_value`: the configured value, or the panic when none was configured. */
    function ReturnValue(): (r: Result<Ret, MockPanic>)
      reads this
      ensures r.Ok? <==> returnValue.Some?
      ensures r.Ok? ==> returnValue == Some(r.value)
      ensures r.Err? ==> r.error == ReturnValueUnset
    {
      match returnValue
      case None => Err(ReturnValueUnset)
      case Some(v) => Ok(v)
    }
  }

  /** `set_returned_result`, for a mock whose return type is a `Result`. */
  method SetReturnedResult<A, S, F>(fake: FakeImplementation<A, Result<S, F>>, value: Result<S, F>)
    modifies fake
    ensures fake.savedArguments == old(fake.savedArguments)
    ensures ReturnValueResult(fake) == Ok(value)
  {
    match value
    case Ok(okResult) => fake.returnValue := Some(Ok(okResult));
    case Err(err) => fake.returnValue := Some(Err(err));
  }

  /** `return_value_result`: the configured `Ok` or `Err`, exactly as it was set. */
  function ReturnValueResult<A, S, F>(fake: FakeImplementation<A, Result<S, F>>): (r: Result<Result<S, F>, MockPanic>)
    reads fake
    ensures fake.returnValue.None? ==> r == Err(ReturnValueUnset)
    ensures fake.returnValue.Some? ==> r == Ok(fake.returnValue.value)
  {
    match fake.returnValue
    case Some(Ok(okResult)) => Ok(Ok(okResult))
    case Some(Err(err)) => Ok(Err(err))
    case None => Err(ReturnValueUnset)
  }

  /** `set_returned_anyhow`: an `Ok` is kept as it is, an error only by its display text. */
  method SetReturnedAnyhow<A, S>(fake: FakeImplementation<A, Result<S, Anyhow.Error>>, value: Result<S, Anyhow.Error>)
    modifies fake
    ensures fake.savedArguments == old(fake.savedArguments)
    ensures value.Ok? ==> ReturnValueAnyhow(fake) == Ok(value)
    ensures value.Err? ==>
      var r := ReturnValueAnyhow(fake);
      r.Ok? && r.value.Err? && Anyhow.Display(r.value.error) == Anyhow.Display(value.error) && r.value.error.causes == []
  {
    match value
    case Ok(okResult) => fake.returnValue := Some(Ok(okResult));
    case Err(err) => fake.returnValue := Some(Err(Anyhow.Msg(Anyhow.Display(err))));
  }

  /** `return_value_anyhow`: an `Ok` is returned as it was set; an error is rebuilt from
      its display text, so its causes are dropped. */
  function ReturnValueAnyhow<A, S>(fake: FakeImplementation<A, Result<S, Anyhow.Error>>): (r: Result<Result<S, Anyhow.Error>, MockPanic>)
    reads fake
    ensures fake.returnValue.None? ==> r == Err(ReturnValueUnset)
    ensures fake.returnValue.Some? && fake.returnValue.value.Ok? ==> r == Ok(fake.returnValue.value)
    ensures fake.returnValue.Some? && fake.returnValue.value.Err? ==>
      r.Ok? && r.value.Err? && r.value.error.causes == [] &&
      Anyhow.Display(r.value.error) == Anyhow.Display(fake.returnValue.value.error)
  {
    match fake.returnValue
    case None => Err(ReturnValueUnset)
    case Some(Ok(okResult)) => Ok(Ok(okResult))
    case Some(Err(err)) => Ok(Err(Anyhow.Msg(Anyhow.Display(err))))
  }
}
