/** The versioned key/value store of src/kvraft1/server.go and src/kvsrv1/server.go, its
    sequential history, and the reference model of src/models1/kv.go. */
module KvStore {
  import opened Types

  /** One operation on the store: the new contents and the answer. */
  function DoOp(s: Store, r: Request): (Store, Reply) {
    match r
    case Get(key) =>
      if key !in s then (s, GetReply("", 0, ErrNoKey))
      else (s, GetReply(s[key].value, s[key].version, OK))
    case Put(key, value, version) =>
      if key !in s then
        if version != 0 then (s, PutReply(ErrNoKey))
        else (s[key := ValueEntry(value, 1)], PutReply(OK))
      else if version != s[key].version then (s, PutReply(ErrVersion))
      else (s[key := ValueEntry(value, s[key].version + 1)], PutReply(OK))
  }

  /** What applying a log slot does to the store; a slot that holds no operation is skipped. */
  function Exec(s: Store, c: Command): Store {
    match c
    case Nop => s
    case Op(_, r) => DoOp(s, r).0
  }

  /** The store after commands 1..k of a log, in order, from an empty store. */
  function Replay(log: seq<Entry>, k: nat): Store
    requires k < |log|
  {
    if k == 0 then map[] else Exec(Replay(log, k - 1), log[k].command)
  }

  /** Replay looks only at the part of the log it replays. */
  lemma {:induction false} ReplayPrefix(a: seq<Entry>, b: seq<Entry>, k: nat)
    requires k < |a| && a <= b
    ensures Replay(a, k) == Replay(b, k)
  {
    if k > 0 {
      ReplayPrefix(a, b, k - 1);
    }
  }

  // ---------------------------------------------------------------- histories of requests

  function Run(s: Store, rs: seq<Request>): Store {
    if rs == [] then s else DoOp(Run(s, rs[..|rs| - 1]), rs[|rs| - 1]).0
  }

  /** The requests among commands 1..k of a log. */
  function Requests(log: seq<Entry>, k: nat): seq<Request>
    requires k < |log|
  {
    if k == 0 then []
    else if log[k].command.Op? then Requests(log, k - 1) + [log[k].command.request]
    else Requests(log, k - 1)
  }

  /** Replaying a log is running its requests one after the other. */
  lemma {:induction false} ReplayIsRun(log: seq<Entry>, k: nat)
    requires k < |log|
    ensures Replay(log, k) == Run(map[], Requests(log, k))
  {
    if k > 0 {
      ReplayIsRun(log, k - 1);
      if log[k].command.Op? {
        var rs := Requests(log, k);
        assert rs[..|rs| - 1] == Requests(log, k - 1);
      }
    }
  }

  lemma {:induction false} RequestsGrow(log: seq<Entry>, j: nat, k: nat)
    requires j <= k < |log|
    ensures Requests(log, j) <= Requests(log, k)
  {
    if j < k {
      RequestsGrow(log, j, k - 1);
    }
  }

  function VersionOf(s: Store, key: string): nat {
    if key in s then s[key].version else 0
  }

  /** Request i of the history is a Put on key that succeeded. */
  predicate Succeeds(rs: seq<Request>, i: nat, key: string)
    requires i < |rs|
  {
    rs[i].Put? && rs[i].key == key && DoOp(Run(map[], rs[..i]), rs[i]).1 == PutReply(OK)
  }

  function Successes(rs: seq<Request>, key: string): nat {
    if rs == [] then 0
    else Successes(rs[..|rs| - 1], key) + if Succeeds(rs, |rs| - 1, key) then 1 else 0
  }

  /** No key that exists has version 0. */
  ghost predicate Versioned(s: Store) {
    forall key | key in s :: s[key].version > 0
  }

  lemma {:induction false} RunVersioned(rs: seq<Request>)
    ensures Versioned(Run(map[], rs))
  {
    if rs != [] {
      RunVersioned(rs[..|rs| - 1]);
    }
  }

  /** Conservation: a key's version is the number of Puts on it that ever succeeded. */
  lemma {:induction false} VersionCounts(rs: seq<Request>, key: string)
    ensures VersionOf(Run(map[], rs), key) == Successes(rs, key)
  {
    if rs != [] {
      var front := rs[..|rs| - 1];
      VersionCounts(front, key);
      RunVersioned(front);
    }
  }

  /** A Put succeeds exactly when it names the current version, where a missing key counts as
      version 0. */
  lemma {:induction false} SucceedsAtVersion(rs: seq<Request>, i: nat, key: string)
    requires i < |rs| && rs[i].Put? && rs[i].key == key
    ensures Succeeds(rs, i, key) <==> rs[i].version == VersionOf(Run(map[], rs[..i]), key)
  {
    RunVersioned(rs[..i]);
  }

  lemma {:induction false} VersionGrows(rs: seq<Request>, i: nat, j: nat, key: string)
    requires i <= j <= |rs|
    ensures VersionOf(Run(map[], rs[..i]), key) <= VersionOf(Run(map[], rs[..j]), key)
    decreases j - i
  {
    if i < j {
      VersionGrows(rs, i, j - 1, key);
      assert rs[..j][..j - 1] == rs[..j - 1];
      RunVersioned(rs[..j - 1]);
    }
  }

  /** At most once: for one key and one version at most one Put of a history succeeds, however
      many clients, copies and resends it contains. */
  lemma AtMostOnePutPerVersion(rs: seq<Request>, i: nat, j: nat, key: string)
    requires i < j < |rs| && Succeeds(rs, i, key) && Succeeds(rs, j, key)
    ensures rs[i].version < rs[j].version
  {
    SucceedsAtVersion(rs, i, key);
    SucceedsAtVersion(rs, j, key);
    assert rs[..i + 1][..i] == rs[..i];
    VersionGrows(rs, i + 1, j, key);
  }

  // ---------------------------------------------------------------- what a history says of a key

  /** How often a Put on the key landed, and the value of the last one: the first Put to land names
      version 0, and each later one the number of those before it. */
  datatype Landed = Landed(count: nat, value: string)

  function Landings(rs: seq<Request>, key: string): Landed {
    if rs == [] then Landed(0, "")
    else
      var before, r := Landings(rs[..|rs| - 1], key), rs[|rs| - 1];
      if r.Put? && r.key == key && r.version == before.count then Landed(before.count + 1, r.value) else before
  }

  /** The answers of the server, from the history alone: a Get is told the last value to land and the
      number of Puts that did, or ErrNoKey if none did; a Put lands exactly if it names that
      number, and otherwise is told whether the key exists. */
  lemma {:induction false} AnswersFollowHistory(rs: seq<Request>, key: string, value: string, version: nat)
    ensures var landed, s := Landings(rs, key), Run(map[], rs);
            && DoOp(s, Get(key)).1 ==
                 (if landed.count == 0 then GetReply("", 0, ErrNoKey)
                  else GetReply(landed.value, landed.count, OK))
            && DoOp(s, Put(key, value, version)).1 ==
                 PutReply(if version == landed.count then OK else if landed.count == 0 then ErrNoKey else ErrVersion)
            && (key in s <==> landed.count > 0)
            && (key in s ==> s[key] == ValueEntry(landed.value, landed.count))
  {
    if rs != [] {
      AnswersFollowHistory(rs[..|rs| - 1], key, value, version);
      var r := rs[|rs| - 1];
      if r.key != key {
        KeyUntouched(Run(map[], rs[..|rs| - 1]), r, key);
      }
    }
  }

  lemma KeyUntouched(s: Store, r: Request, key: string)
    requires r.key != key
    ensures key in DoOp(s, r).0 <==> key in s
    ensures key in s ==> DoOp(s, r).0[key] == s[key]
  {
  }

  // ---------------------------------------------------------------- the reference model

  datatype ModelState = ModelState(value: string, version: nat)

  /** Init and Step of KvModel, for the one key it models. */
  const MODEL_INIT := ModelState("", 0)

  function ModelStep(st: ModelState, r: Request, out: Reply): (bool, ModelState) {
    match r
    case Get(_) => (out.GetReply? && out.value == st.value, st)
    case Put(_, value, version) =>
      var err := out.err;
      if st.version == version then (err == OK || err == ErrMaybe, ModelState(value, st.version + 1))
      else (err == ErrVersion || err == ErrMaybe, st)
  }

  function Model(s: Store, key: string): ModelState {
    if key in s then ModelState(s[key].value, s[key].version) else MODEL_INIT
  }

  /** The store refines the reference model, a missing key being ("", 0), with one exception:
      the model rejects the answer exactly when a Put names a non-zero version of a missing
      key, which the server answers with ErrNoKey.  Other keys are untouched. */
  lemma {:induction false} RefinesModel(rs: seq<Request>, r: Request, other: string)
    ensures var s := Run(map[], rs);
            var (s', out) := DoOp(s, r);
            var (ok, st) := ModelStep(Model(s, r.key), r, out);
            && st == Model(s', r.key)
            && (ok <==> !(r.Put? && r.key !in s && r.version != 0))
            && (other != r.key ==> Model(s', other) == Model(s, other))
  {
    RunVersioned(rs);
  }

  // ---------------------------------------------------------------- the server object

  /** The server object: Put changes the map in place. */
  class KVServer {
    var data: Store

    /** MakeKVServer. */
    constructor ()
      ensures data == map[]
    {
      data := map[];
    }

    method Get(key: string) returns (reply: Reply)
      ensures reply == DoOp(data, Request.Get(key)).1
    {
      if key !in data {
        return GetReply("", 0, ErrNoKey);
      }
      var entry := data[key];
      reply := GetReply(entry.value, entry.version, OK);
    }

    method Put(key: string, value: string, version: nat) returns (reply: Reply)
      modifies this
      ensures (data, reply) == DoOp(old(data), Request.Put(key, value, version))
    {
      if key !in data {
        if version != 0 {
          return PutReply(ErrNoKey);
        }
        data := data[key := ValueEntry(value, 1)];
        return PutReply(OK);
      }
      var entry := data[key];
      if version != entry.version {
        return PutReply(ErrVersion);
      }
      data := data[key := ValueEntry(value, entry.version + 1)];
      reply := PutReply(OK);
    }

    /** DoOp of the replicated server. */
    method Execute(r: Request) returns (reply: Reply)
      modifies this
      ensures (data, reply) == DoOp(old(data), r)
    {
      match r {
        case Get(key) => reply := Get(key);
        case Put(key, value, version) => reply := Put(key, value, version);
      }
    }

    method Snapshot() returns (image: Store)
      ensures image == data
    {
      image := data;
    }

    /** Restore; an empty image, here None, leaves the store alone. */
    method Restore(image: Option<Store>)
      modifies this
      ensures data == if image.Some? then image.value else old(data)
    {
      if image.Some? {
        data := image.value;
      }
    }
  }
}
