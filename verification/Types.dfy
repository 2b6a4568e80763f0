/** Values shared by the replicated key/value stack: options, store contents, client
    requests, log entries and peer roles. */
module Types {

  datatype Option<+T> = None | Some(value: T)

  /** Error codes of src/kvsrv1/rpc/rpc.go. */
  datatype Err = OK | ErrNoKey | ErrVersion | ErrMaybe | ErrWrongLeader

  datatype ValueEntry = ValueEntry(value: string, version: nat)

  /** Contents of a key/value server.  A snapshot image is the same value, because encoding
      followed by decoding is taken to be the identity. */
  type Store = map<string, ValueEntry>

  datatype Request = Get(key: string) | Put(key: string, value: string, version: nat)

  datatype Reply = GetReply(value: string, version: nat, err: Err) | PutReply(err: Err)

  /** What a log slot holds: nothing (the dummy slot in front of the log) or an operation
      stamped with the identifier chosen by Submit. */
  datatype Command = Nop | Op(id: int, request: Request)

  datatype Entry = Entry(term: nat, command: Command)

  datatype Role = Follower | Candidate | Leader

  function Max(a: nat, b: nat): nat { if a < b then b else a }

  function Min(a: nat, b: nat): nat { if a < b then a else b }

  /** The peers 0..n-1. */
  function Peers(n: nat): (s: set<nat>)
    ensures |s| == n
    ensures forall x :: x in s <==> 0 <= x < n
  {
    if n == 0 then {} else Peers(n - 1) + {n - 1}
  }
}
