/**
  A fake of the secret store's logical API: a map from path to the field map
  stored there, and a log of the calls made. The outcome of every call (it
  succeeds, the store answers "not found", or it fails otherwise) is chosen
  by the caller, standing in for the network and the server.
*/
module Client {
  import opened Wrappers
  import opened Values

  type Store = map<string, Fields>

  datatype Outcome = Ok | NotFound | Failed

  /** The error a call returns; `Status404` is what the source's `util.Is404`
      recognises. */
  datatype ClientError = Status404 | OtherError

  datatype Call = WriteCall(path: string, data: Fields) | ReadCall(path: string) | DeleteCall(path: string)

  /** What `Read` returns: the stored fields, nil (no resource), or an error. */
  datatype Reply = Data(fields: Fields) | NoData | ReadError

  function ErrorOf(o: Outcome): Option<ClientError> {
    match o
    case Ok => None
    case NotFound => Some(Status404)
    case Failed => Some(OtherError)
  }

  /** A write replaces the field map at `path` when it succeeds. */
  function Written(store: Store, path: string, data: Fields, o: Outcome): Store {
    if o == Ok then store[path := data] else store
  }

  function Deleted(store: Store, path: string, o: Outcome): Store {
    if o == Ok then store - {path} else store
  }

  /** A read answers nil both for a missing path and for "not found", as the
      API client does. */
  function ReplyOf(store: Store, path: string, o: Outcome): Reply {
    match o
    case Ok => if path in store then Data(store[path]) else NoData
    case NotFound => NoData
    case Failed => ReadError
  }

  class FakeClient {
    var store: Store
    var log: seq<Call>

    constructor (initial: Store)
      ensures store == initial && log == []
    {
      store := initial;
      log := [];
    }

    /** `Logical().Write(path, data)`. */
    method Write(path: string, data: Fields, o: Outcome) returns (err: Option<ClientError>)
      modifies this
      ensures store == Written(old(store), path, data, o)
      ensures log == old(log) + [WriteCall(path, data)]
      ensures err == ErrorOf(o)
    {
      if o == Ok {
        store := store[path := data];
      }
      log := log + [WriteCall(path, data)];
      err := ErrorOf(o);
    }

    /** `Logical().Read(path)`. */
    method Read(path: string, o: Outcome) returns (reply: Reply)
      modifies this`log
      ensures log == old(log) + [ReadCall(path)]
      ensures reply == ReplyOf(store, path, o)
    {
      log := log + [ReadCall(path)];
      if o == Failed {
        reply := ReadError;
      } else if o == Ok && path in store {
        reply := Data(store[path]);
      } else {
        reply := NoData;
      }
    }

    /** `Logical().Delete(path)`. */
    method Delete(path: string, o: Outcome) returns (err: Option<ClientError>)
      modifies this
      ensures store == Deleted(old(store), path, o)
      ensures log == old(log) + [DeleteCall(path)]
      ensures err == ErrorOf(o)
    {
      if o == Ok {
        store := store - {path};
      }
      log := log + [DeleteCall(path)];
      err := ErrorOf(o);
    }
  }
}
