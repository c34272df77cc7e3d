/** The shared message and response records of the `rust-models` crate. */
module RustModels {
  import opened Wrappers

  /** `Message`; `timestamp` is an `i64`. */
  datatype Message = Message(id: string, content: string, timestamp: int)

  /** `Response<T>`. */
  datatype Response<T> = Response(success: bool, data: Option<T>, error: Option<string>)

  const I64Min: int := -0x8000_0000_0000_0000
  const I64Max: int := 0x7FFF_FFFF_FFFF_FFFF

  /** `Message::new`: the fields as given. */
  function NewMessage(id: string, content: string, timestamp: int): (m: Message)
    requires I64Min <= timestamp <= I64Max
    ensures m.id == id && m.content == content && m.timestamp == timestamp
  {
    Message(id, content, timestamp)
  }

  /** `Response::success`. */
  function Success<T>(data: T): (r: Response<T>)
    ensures r.success && r.data == Some(data) && r.error.None?
  {
    Response(true, Some(data), None)
  }

  /** `Response::error`. */
  function Error<T>(error: string): (r: Response<T>)
    ensures !r.success && r.data.None? && r.error == Some(error)
  {
    Response(false, None, Some(error))
  }

  /** A response either constructor builds: successful exactly when it has data,
      and exactly when it has no error. */
  predicate WellFormed<T>(r: Response<T>) {
    (r.success <==> r.data.Some?) && (r.success <==> r.error.None?)
  }

  /** Both constructors build well-formed responses, and a well-formed response is
      one of the two constructions. */
  lemma ConstructedResponsesAreWellFormed<T>(r: Response<T>)
    ensures WellFormed(r) <==> (exists d :: r == Success(d)) || (exists e :: r == Error(e))
  {
    if WellFormed(r) {
      if r.success {
        assert r == Success(r.data.value);
      } else {
        assert r == Error<T>(r.error.value);
      }
    }
  }
}
