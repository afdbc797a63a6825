/**
 The session writes a decision lists, made on the store's contents, and the
 forgetting of expired sessions that no reader can see.
 */
module SessionWrites {
  import opened Wrappers
  import opened Sessions
  import opened Decision

  function SessionsAt(c: Contents, now: int): string -> Option<Session> {
    id => LiveAt(c, id, now)
  }

  /** The world with the in-memory store in it, which never refuses a write. */
  function WithStore(w: World, c: Contents): World {
    w.(session := SessionsAt(c, w.now), putOk := true)
  }

  function MadeOp(c: Contents, op: StoreOp, now: int): Contents {
    match op
    case Keep(s, ttl) => AfterOp(c, PutOp(s, ttl), now)
    case Drop(id) => AfterOp(c, DeleteOp(id), now)
  }

  /** The store after a decision's writes. */
  function Made(c: Contents, ops: seq<StoreOp>, now: int): Contents {
    if ops == [] then c else MadeOp(Made(c, ops[..|ops| - 1], now), ops[|ops| - 1], now)
  }

  lemma MadeOneMore(c: Contents, ops: seq<StoreOp>, op: StoreOp, now: int)
    ensures Made(c, ops + [op], now) == MadeOp(Made(c, ops, now), op, now)
  {
    assert (ops + [op])[..|ops|] == ops;
  }

  lemma MadeOne(c: Contents, op: StoreOp, now: int)
    ensures Made(c, [op], now) == MadeOp(c, op, now)
  {
    MadeOneMore(c, [], op, now);
    assert [] + [op] == [op];
  }

  lemma {:induction false} MadeConcat(c: Contents, first: seq<StoreOp>, second: seq<StoreOp>, now: int)
    ensures Made(c, first + second, now) == Made(Made(c, first, now), second, now)
  {
    if second == [] {
      assert first + second == first;
    } else {
      var front, last := second[..|second| - 1], second[|second| - 1];
      MadeConcat(c, first, front, now);
      MadeOneMore(c, first + front, last, now);
      assert first + second == (first + front) + [last];
    }
  }

  /** Nothing in `c` but what `d` holds. */
  ghost predicate Within(c: Contents, d: Contents) {
    forall id :: id in c ==> id in d && c[id] == d[id]
  }

  /** `c` is `d` with some expired sessions forgotten. */
  ghost predicate Forgets(c: Contents, d: Contents, now: int) {
    Within(c, d) && forall id :: id in d && now <= d[id].expiresIn ==> id in c
  }

  /** Forgotten sessions are invisible. */
  lemma ForgetsLooksTheSame(c: Contents, d: Contents, now: int, id: string)
    requires Forgets(c, d, now)
    ensures LiveAt(c, id, now) == LiveAt(d, id, now)
  {
    if id in c {
      assert c[id] == d[id];
    }
  }

  lemma {:induction false} MadeForgets(c: Contents, d: Contents, ops: seq<StoreOp>, now: int)
    requires Forgets(c, d, now)
    ensures Forgets(Made(c, ops, now), Made(d, ops, now), now)
  {
    if ops != [] {
      MadeForgets(c, d, ops[..|ops| - 1], now);
    }
  }

  /** The lazy deletion of `Get` forgets no live session. */
  lemma GetForgets(c: Contents, id: string, now: int)
    ensures Forgets(AfterOp(c, GetOp(id), now), c, now)
  {
  }
}
