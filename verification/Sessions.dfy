/**
 The in-memory session store: entries expire lazily, a reaper removes the rest,
 and callers only ever hold copies.
 */
module Sessions {
  import opened Wrappers

  /** Times are nanoseconds; a `createdAt` of 0 is the unset time. */
  datatype Session = Session(
    id: string,
    application: string,
    authenticated: bool,
    state: string,
    nonce: string,
    codeVerifier: string,
    returnTo: string,
    accessToken: string,
    refreshToken: string,
    idToken: string,
    expiresAt: int,
    subject: string,
    displayName: string,
    createdAt: int,
    expiresIn: int)

  type Contents = map<string, Session>

  /** The copy `Put` keeps. */
  function Stamped(s: Session, ttl: int, now: int): Session {
    s.(expiresIn := now + ttl, createdAt := if s.createdAt == 0 then now else s.createdAt)
  }

  function LiveAt(c: Contents, id: string, now: int): Option<Session> {
    if id in c && now <= c[id].expiresIn then Some(c[id]) else None
  }

  /** A pointer to a session, as callers and the store hold them. */
  class SessionRef {
    var value: Session

    constructor (value: Session)
      ensures this.value == value
    {
      this.value := value;
    }
  }

  // ---- what one operation does to the data ---------------------------------------

  datatype Op =
    | PutOp(session: Session, ttl: int)
    | GetOp(id: string)
    | DeleteOp(id: string)
    | ReapOp

  function Unexpired(c: Contents, now: int): Contents {
    map id | id in c && now <= c[id].expiresIn :: c[id]
  }

  function AfterOp(c: Contents, op: Op, now: int): Contents {
    match op
    case PutOp(s, ttl) => c[s.id := Stamped(s, ttl, now)]
    case GetOp(id) => if id in c && now > c[id].expiresIn then c - {id} else c
    case DeleteOp(id) => c - {id}
    case ReapOp => Unexpired(c, now)
  }

  class MemStore {
    var data: map<string, SessionRef>

    ghost function Contents(): Contents
      reads this, data.Values
    {
      map id | id in data :: data[id].value
    }

    constructor ()
      ensures data == map[] && Contents() == map[]
    {
      data := map[];
    }

    /** Keeps its own copy: the caller's session stays the caller's. */
    method Put(s: SessionRef, ttl: int, now: int)
      modifies this
      ensures forall id :: id in data ==> (id in old(data) && data[id] == old(data)[id]) || fresh(data[id])
      ensures Contents() == AfterOp(old(Contents()), PutOp(s.value, ttl), now)
    {
      var cp := s.value;
      cp := cp.(expiresIn := now + ttl);
      if cp.createdAt == 0 {
        cp := cp.(createdAt := now);
      }
      ghost var before := Contents();
      var kept := new SessionRef(cp);
      data := data[cp.id := kept];
      assert Contents().Keys == before.Keys + {cp.id};
    }

    /** A copy of the live session, or nothing; an expired entry is dropped at once. */
    method Get(id: string, now: int) returns (found: SessionRef?)
      modifies this
      ensures forall id :: id in data ==> id in old(data) && data[id] == old(data)[id]
      ensures Contents() == AfterOp(old(Contents()), GetOp(id), now)
      ensures found != null ==> fresh(found)
      ensures LiveAt(old(Contents()), id, now) == if found == null then None else Some(found.value)
    {
      if id !in data {
        return null;
      }
      var s := data[id];
      if now > s.value.expiresIn {
        data := data - {id};
        return null;
      }
      found := new SessionRef(s.value);
    }

    method Delete(id: string, now: int)
      modifies this
      ensures forall id :: id in data ==> id in old(data) && data[id] == old(data)[id]
      ensures Contents() == AfterOp(old(Contents()), DeleteOp(id), now)
    {
      data := data - {id};
    }

    /** One pass of the reaper over every entry. */
    method Reap(now: int)
      modifies this
      ensures forall id :: id in data ==> id in old(data) && data[id] == old(data)[id]
      ensures Contents() == AfterOp(old(Contents()), ReapOp, now)
    {
      var left := data.Keys;
      ghost var was := data;
      while left != {}
        invariant left <= was.Keys
        invariant data.Keys <= was.Keys && forall id :: id in data ==> data[id] == was[id]
        invariant forall id :: id in was ==> (id in data <==> id in left || now <= was[id].value.expiresIn)
        decreases left
      {
        var k :| k in left;
        left := left - {k};
        if now > data[k].value.expiresIn {
          data := data - {k};
        }
      }
    }
  }

  // ---- refinement to the last word on an id -------------------------------------------

  datatype Timed = Timed(at: int, op: Op)

  function Run(c: Contents, ops: seq<Timed>): Contents {
    if ops == [] then c
    else
      var last := ops[|ops| - 1];
      AfterOp(Run(c, ops[..|ops| - 1]), last.op, last.at)
  }

  /** What was last put under `id` and not deleted since; expiry and reaping play no part. */
  function LastPut(ops: seq<Timed>, id: string): Option<Session> {
    if ops == [] then None
    else
      var last, before := ops[|ops| - 1], ops[..|ops| - 1];
      match last.op
      case PutOp(s, ttl) => if s.id == id then Some(Stamped(s, ttl, last.at)) else LastPut(before, id)
      case DeleteOp(other) => if other == id then None else LastPut(before, id)
      case GetOp(_) => LastPut(before, id)
      case ReapOp => LastPut(before, id)
  }

  ghost predicate Monotone(ops: seq<Timed>) {
    forall i, j :: 0 <= i < j < |ops| ==> ops[i].at <= ops[j].at
  }

  /** The data holds the last word on `id`, except that it may have forgotten an expired one. */
  ghost predicate Agrees(c: Contents, ops: seq<Timed>, id: string, now: int) {
    && (id in c ==> LastPut(ops, id) == Some(c[id]))
    && (id !in c && LastPut(ops, id).Some? ==> now > LastPut(ops, id).value.expiresIn)
  }

  lemma {:induction false} RunAgrees(ops: seq<Timed>, id: string, now: int)
    requires Monotone(ops) && (ops != [] ==> ops[|ops| - 1].at <= now)
    ensures Agrees(Run(map[], ops), ops, id, now)
  {
    if ops != [] {
      var front, last := ops[..|ops| - 1], ops[|ops| - 1];
      RunAgrees(front, id, last.at);
      assert Agrees(Run(map[], front), front, id, last.at);
    }
  }

  /** `Get` succeeds exactly when the last `Put` is unexpired and no `Delete` followed, however the reaper runs. */
  lemma TtlStoreRefines(ops: seq<Timed>, id: string, now: int)
    requires Monotone(ops) && (ops != [] ==> ops[|ops| - 1].at <= now)
    ensures LiveAt(Run(map[], ops), id, now)
         == match LastPut(ops, id)
            case Some(s) => if now <= s.expiresIn then Some(s) else None
            case None => None
  {
    RunAgrees(ops, id, now);
  }

  function WithoutReaping(ops: seq<Timed>): seq<Timed> {
    if ops == [] then []
    else
      var front, last := WithoutReaping(ops[..|ops| - 1]), ops[|ops| - 1];
      if last.op.ReapOp? || last.op.GetOp? then front else front + [last]
  }

  lemma {:induction false} ReapingLeavesWords(ops: seq<Timed>, id: string)
    ensures LastPut(WithoutReaping(ops), id) == LastPut(ops, id)
  {
    if ops != [] {
      var front, last := ops[..|ops| - 1], ops[|ops| - 1];
      ReapingLeavesWords(front, id);
      var kept := WithoutReaping(front);
      assert (kept + [last])[..|kept|] == kept;
    }
  }

  lemma {:induction false} WithoutReapingMonotone(ops: seq<Timed>)
    requires Monotone(ops)
    ensures Monotone(WithoutReaping(ops))
    ensures WithoutReaping(ops) != [] ==> WithoutReaping(ops)[|WithoutReaping(ops)| - 1].at <= ops[|ops| - 1].at
  {
    if ops != [] {
      var front := ops[..|ops| - 1];
      WithoutReapingMonotone(front);
      var kept := WithoutReaping(front);
      if kept != [] {
        assert kept[|kept| - 1].at <= front[|front| - 1].at;
        assert front[|front| - 1] == ops[|ops| - 2];
      }
    }
  }

  /** Reaping and lazy deletion are invisible: leaving them out changes no answer. */
  lemma ReapingIsInvisible(ops: seq<Timed>, id: string, now: int)
    requires Monotone(ops) && (ops != [] ==> ops[|ops| - 1].at <= now)
    ensures LiveAt(Run(map[], ops), id, now) == LiveAt(Run(map[], WithoutReaping(ops)), id, now)
  {
    TtlStoreRefines(ops, id, now);
    WithoutReapingMonotone(ops);
    ReapingLeavesWords(ops, id);
    TtlStoreRefines(WithoutReaping(ops), id, now);
  }

  // ---- the deletion of `Get`, when it comes late --------------------------------------------

  /** Without a `Put` on `id` only what was there can be there. */
  lemma {:induction false} WithoutPutStays(c: Contents, ops: seq<Timed>, id: string)
    requires forall k :: 0 <= k < |ops| && ops[k].op.PutOp? ==> ops[k].op.session.id != id
    ensures id in Run(c, ops) ==> id in c && Run(c, ops)[id] == c[id]
  {
    if ops != [] {
      WithoutPutStays(c, ops[..|ops| - 1], id);
    }
  }

  /**
   `Get` tests for expiry under one lock and deletes under another. With other operations in
   between, the deletion is invisible exactly when no live session is under the id by then;
   and one is there only if it was put in between, which the deletion then loses.
   */
  lemma LateDeletionExactly(c: Contents, id: string, tested: int, between: seq<Timed>, now: int)
    requires id in c && tested > c[id].expiresIn && tested <= now
    ensures (forall x :: LiveAt(AfterOp(Run(c, between), DeleteOp(id), now), x, now) == LiveAt(Run(c, between), x, now))
       <==> LiveAt(Run(c, between), id, now).None?
    ensures LiveAt(Run(c, between), id, now).Some? ==>
              exists k :: 0 <= k < |between| && between[k].op.PutOp? && between[k].op.session.id == id
  {
    var before, after := Run(c, between), AfterOp(Run(c, between), DeleteOp(id), now);
    assert LiveAt(after, id, now).None?;
    forall x | x != id ensures LiveAt(after, x, now) == LiveAt(before, x, now) {
    }
    if forall k :: 0 <= k < |between| && between[k].op.PutOp? ==> between[k].op.session.id != id {
      WithoutPutStays(c, between, id);
    }
  }

  /** A session put between the test and the deletion: live, and then lost. */
  lemma LateDeletionLoses(c: Contents, s: Session, ttl: int, tested: int, at: int, now: int)
    requires s.id in c && c[s.id].expiresIn < tested <= at <= now <= at + ttl
    ensures LiveAt(Run(c, [Timed(at, PutOp(s, ttl))]), s.id, now) == Some(Stamped(s, ttl, at))
    ensures LiveAt(AfterOp(Run(c, [Timed(at, PutOp(s, ttl))]), DeleteOp(s.id), now), s.id, now) == None
  {
    var between := [Timed(at, PutOp(s, ttl))];
    assert between[..0] == [] && Run(c, between[..0]) == c;
  }
}
