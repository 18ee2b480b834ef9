/** The agent's health record (src/global.ts): a fixed-capacity ring buffer
    of the most recent errors the agent got from the server, and a flag that
    says whether registration with the server has succeeded. */
module Health {
  import opened Base
  import opened Arith

  /** An agent-to-server error as recorded by the request layer. */
  datatype AgentError = AgentError(code: Option<int>, msg: string, ts: int)

  /** One `recordServerError` on slots `slots` with cursor `cur`: append
      below capacity, otherwise overwrite slot `cur`. */
  function Record(slots: seq<AgentError>, cur: nat, size: nat, e: AgentError): seq<AgentError> {
    if |slots| < size then slots + [e]
    else if cur < |slots| then slots[cur := e]
    else slots
  }

  /** The buffer contents after recording `recorded`, in order, into a ring
      of capacity `size`, where the cursor after `k` records is `k % size`. */
  function Slots(recorded: seq<AgentError>, size: nat): seq<AgentError>
    requires size > 0
    decreases |recorded|
  {
    if |recorded| == 0 then []
    else
      var n := |recorded| - 1;
      Record(Slots(recorded[..n], size), n % size, size, recorded[n])
  }

  function Min(a: nat, b: nat): nat { if a < b then a else b }

  /** The buffer never outgrows its capacity, and holds every error while
      below it. */
  lemma {:induction false} SlotsLength(recorded: seq<AgentError>, size: nat)
    requires size > 0
    ensures |Slots(recorded, size)| == Min(|recorded|, size)
    decreases |recorded|
  {
    if |recorded| > 0 {
      SlotsLength(recorded[..|recorded| - 1], size);
    }
  }

  /** Error `k` is in slot `k % size` as long as it is one of the last
      `size` errors recorded: the buffer holds exactly the most recent
      errors, in slot order rather than in the order they came. */
  lemma {:induction false} SlotsWindow(recorded: seq<AgentError>, size: nat, k: nat)
    requires size > 0
    requires k < |recorded| && |recorded| - size <= k
    ensures k % size < |Slots(recorded, size)|
    ensures Slots(recorded, size)[k % size] == recorded[k]
    decreases |recorded|
  {
    var n := |recorded| - 1;
    var before := recorded[..n];
    var prior := Slots(before, size);
    var c := n % size;
    SlotsLength(before, size);
    assert Slots(recorded, size) == Record(prior, c, size, recorded[n]);
    if k == n {
      if n < size {
        DivUnique(n, size, 0, n);
      }
    } else {
      SlotsWindow(before, size, k);
      assert before[k] == recorded[k];
      if n < size {
        DivUnique(k, size, 0, k);
      } else {
        ModDistinct(k, n, size);
      }
    }
  }

  /** `SlotsWindow` for every error of the window at once. */
  lemma SlotsWindowAll(recorded: seq<AgentError>, size: nat)
    requires size > 0
    ensures forall k :: 0 <= k < |recorded| && |recorded| - size <= k ==>
      k % size < |Slots(recorded, size)| && Slots(recorded, size)[k % size] == recorded[k]
  {
    forall k | 0 <= k < |recorded| && |recorded| - size <= k
      ensures k % size < |Slots(recorded, size)| && Slots(recorded, size)[k % size] == recorded[k]
    {
      SlotsWindow(recorded, size, k);
    }
  }

  class AgentHealthManager {
    const errorHistorySize: nat
    var cur: nat
    var serverErrors: seq<AgentError>
    var registered: bool
    /** Every error recorded so far, oldest first. */
    ghost var recorded: seq<AgentError>

    ghost predicate Valid()
      reads this
    {
      errorHistorySize > 0 &&
      serverErrors == Slots(recorded, errorHistorySize) &&
      cur == |recorded| % errorHistorySize
    }

    constructor (errorHistorySize: nat)
      requires errorHistorySize > 0
      ensures Valid()
      ensures this.errorHistorySize == errorHistorySize
      ensures serverErrors == [] && recorded == [] && cur == 0 && !registered
    {
      this.errorHistorySize := errorHistorySize;
      cur := 0;
      serverErrors := [];
      registered := false;
      recorded := [];
    }

    /** Records one error: appended below capacity, otherwise written over
        slot `cur`; the cursor then advances modulo the capacity. */
    method RecordServerError(agentServerError: AgentError)
      requires Valid()
      modifies this
      ensures Valid()
      ensures recorded == old(recorded) + [agentServerError]
      ensures serverErrors == if |old(serverErrors)| < errorHistorySize
        then old(serverErrors) + [agentServerError]
        else old(serverErrors)[old(cur) := agentServerError]
      ensures cur == (old(cur) + 1) % errorHistorySize
      ensures registered == old(registered)
    {
      SlotsLength(recorded, errorHistorySize);
      ModSucc(|recorded|, errorHistorySize);
      if cur + 1 < errorHistorySize {
        DivUnique(cur + 1, errorHistorySize, 0, cur + 1);
      } else {
        DivUnique(cur + 1, errorHistorySize, 1, 0);
      }
      ghost var next := recorded + [agentServerError];
      assert next[..|next| - 1] == recorded;
      assert Slots(next, errorHistorySize) == Record(serverErrors, cur, errorHistorySize, agentServerError);
      if |serverErrors| < errorHistorySize {
        serverErrors := serverErrors + [agentServerError];
      } else {
        serverErrors := serverErrors[cur := agentServerError];
      }
      cur := (cur + 1) % errorHistorySize;
      recorded := next;
    }

    method RecordRegistration()
      modifies this
      ensures registered
      ensures serverErrors == old(serverErrors) && cur == old(cur) && recorded == old(recorded)
    {
      registered := true;
    }

    /** The buffer as it stands: at most `errorHistorySize` errors, and
        exactly the most recent ones, error `k` in slot `k % size`. */
    function GetServerErrors(): (errors: seq<AgentError>)
      reads this
      ensures Valid() ==> |errors| == Min(|recorded|, errorHistorySize)
      ensures Valid() ==> forall k :: 0 <= k < |recorded| && |recorded| - errorHistorySize <= k ==>
        k % errorHistorySize < |errors| && errors[k % errorHistorySize] == recorded[k]
    {
      if errorHistorySize > 0 then
        SlotsLength(recorded, errorHistorySize);
        SlotsWindowAll(recorded, errorHistorySize);
        serverErrors
      else serverErrors
    }

    /** Whether registration has been recorded: false from construction
        until `RecordRegistration`, which no error recording undoes. */
    function IsRegistered(): (b: bool)
      reads this
      ensures b <==> registered
    {
      registered
    }
  }
}
