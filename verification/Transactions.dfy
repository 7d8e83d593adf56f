// A database behind short transactions, and the bounded loop that retries one while it is locked.
module Transactions {
  datatype Option<T> = None | Some(value: T)

  // Whatever may be raised: the layer's own errors, the driver's, and a cancellation, which is not an
  // error that may be retried.
  datatype Error =
    | Transient
    | TransactionFailed
    | NotStarted
    | Operational(message: string)
    | OtherSql
    | Raised(kind: int)
    | Cancelled
    | NoAttempt

  datatype Result<T> = Success(value: T) | Failure(error: Error)

  // --- Which errors mean that another writer holds the lock ---

  function Lower(c: char): char {
    if 'A' <= c <= 'Z' then (c as int + 32) as char else c
  }

  predicate Says(message: string, fragment: string) {
    exists i :: 0 <= i <= |message| - |fragment| && SaysAt(message, fragment, i)
  }

  predicate SaysAt(message: string, fragment: string, i: nat)
    requires i <= |message| - |fragment|
  {
    forall k :: 0 <= k < |fragment| ==> Lower(message[i + k]) == fragment[k]
  }

  predicate LockContention(error: Error) {
    match error
    case Transient => true
    case Operational(message) =>
      || Says(message, "database is locked") || Says(message, "database table is locked")
      || Says(message, "database schema is locked")
    case _ => false
  }

  function LowerAll(s: string): string {
    seq(|s|, k requires 0 <= k < |s| => Lower(s[k]))
  }

  lemma LowersLetters(c: char)
    ensures LowerAll("ABCDEFGHIJKLMNOPQRSTUVWXYZ") == "abcdefghijklmnopqrstuvwxyz"
    ensures c !in "ABCDEFGHIJKLMNOPQRSTUVWXYZ" ==> Lower(c) == c
  {
    var letters := "ABCDEFGHIJKLMNOPQRSTUVWXYZ";
    assert forall k :: 0 <= k < |letters| ==> letters[k] as int == 'A' as int + k;
    if 'A' <= c <= 'Z' {
      assert letters[c as int - 'A' as int] == c;
    }
  }

  // Another writer holds the lock: the layer says so, or the driver does, somewhere in its message and in
  // whatever case, of the database, a table or the schema. Nothing else is retried.
  lemma LockContentionWhen(error: Error)
    ensures LockContention(error) <==>
      match error
      case Transient => true
      case Operational(message) => exists before, said, after :: Locks(message, before, said, after)
      case _ => false
  {
    if error.Operational? {
      var message := error.message;
      if LockContention(error) {
        var fragment := if Says(message, "database is locked") then "database is locked"
          else if Says(message, "database table is locked") then "database table is locked"
          else "database schema is locked";
        var i :| 0 <= i <= |message| - |fragment| && SaysAt(message, fragment, i);
        var said := message[i..i + |fragment|];
        assert LowerAll(said) == fragment;
        assert Locks(message, message[..i], said, message[i + |fragment|..]);
      }
      if before, said, after :| Locks(message, before, said, after) {
        assert SaysAt(message, LowerAll(said), |before|);
      }
    }
  }

  ghost predicate Locks(message: string, before: string, said: string, after: string) {
    && message == before + said + after
    && LowerAll(said) in {"database is locked", "database table is locked", "database schema is locked"}
  }

  // --- One transaction ---

  // How an attempt goes, whatever the operation would do: no connection, an operation that raises
  // part of the way, a commit that fails, or a commit.
  datatype Attempt = NoConnection(error: Error) | Raises(error: Error) | CommitFails(error: Error) | Commits

  // What a caller of the transaction sees raised.
  function Reported(attempt: Attempt): Option<Error> {
    match attempt
    case NoConnection(error) => Some(error)
    case Raises(error) => Some(error)
    case CommitFails(error) => Some(if LockContention(error) then Transient else TransactionFailed)
    case Commits => None
  }

  predicate Locked(attempt: Attempt) {
    Reported(attempt).Some? && LockContention(Reported(attempt).value)
  }

  // --- The retry loop's arithmetic ---

  function Delay(base: real, attempt: nat): real {
    base * attempt as real
  }

  // The delays after the first `count` attempts.
  function Delays(base: real, count: nat): (r: seq<real>)
    ensures |r| == count
  {
    if count == 0 then [] else Delays(base, count - 1) + [Delay(base, count)]
  }

  function Sum(delays: seq<real>): real {
    if delays == [] then 0.0 else Sum(delays[..|delays| - 1]) + delays[|delays| - 1]
  }

  function Triangle(n: nat): nat {
    if n == 0 then 0 else Triangle(n - 1) + n
  }

  lemma {:induction false} TriangleIsHalf(n: nat)
    ensures 2 * Triangle(n) == n * (n + 1)
  {
    if n > 0 {
      TriangleIsHalf(n - 1);
    }
  }

  lemma {:induction false} TriangleGrows(m: nat, n: nat)
    requires m <= n
    ensures Triangle(m) <= Triangle(n)
    decreases n
  {
    if m < n {
      TriangleGrows(m, n - 1);
    }
  }

  lemma {:induction false} DelaysAddUp(base: real, count: nat)
    ensures Sum(Delays(base, count)) == Delay(base, Triangle(count))
  {
    if count > 0 {
      DelaysAddUp(base, count - 1);
      assert Delays(base, count)[..count - 1] == Delays(base, count - 1);
      Distribute(base, Triangle(count - 1) as real, count as real);
      assert Triangle(count) as real == Triangle(count - 1) as real + count as real;
    }
  }

  lemma Distribute(base: real, a: real, b: real)
    ensures base * (a + b) == base * a + base * b
  {
  }

  lemma DelayGrows(base: real, a: nat, b: nat)
    requires base >= 0.0 && a <= b
    ensures Delay(base, a) <= Delay(base, b)
  {
    assert base * (b - a) as real >= 0.0;
  }

  // However a run of at most `n` attempts ends, it has waited no longer than this in all.
  lemma WaitingIsBounded(script: nat -> Attempt, base: real, n: nat, tried: nat)
    requires base >= 0.0 && EndsAt(script, n, tried)
    ensures Sum(Delays(base, tried - 1)) <= Delay(base, Triangle(n - 1))
  {
    DelaysAddUp(base, tried - 1);
    hide Delay, Triangle, Delays, Sum, LockedBefore;
    TriangleGrows(tried - 1, n - 1);
    DelayGrows(base, Triangle(tried - 1), Triangle(n - 1));
  }

  // The attempts before the `k`th all found the database locked.
  ghost predicate LockedBefore(script: nat -> Attempt, k: nat) {
    forall j: nat :: 0 < j < k ==> Locked(script(j))
  }

  // How the loop ends when it has made `tried` of at most `n` attempts: at the first one that is not
  // locked out, or after the last.
  ghost predicate EndsAt(script: nat -> Attempt, n: int, tried: nat) {
    && 0 < tried <= n && LockedBefore(script, tried)
    && (Locked(script(tried)) ==> tried == n)
  }

  // A database after what others committed before each of the first `count` attempts, in order.
  function WithOthers<D>(others: nat -> D -> D, content: D, count: nat): D {
    if count == 0 then content else others(count)(WithOthers(others, content, count - 1))
  }

  class Database<D> {
    var started: bool
    var content: D
    var slept: seq<real>

    constructor (content: D)
      ensures this.content == content && !started && slept == []
    {
      this.content, started, slept := content, false, [];
    }

    method Start()
      modifies this`started
      ensures started
    {
      started := true;
    }

    // Runs an operation in a transaction of its own: all of what it does is kept, or none of it.
    method Transaction<T>(operation: D -> (D, T), attempt: Attempt) returns (r: Result<T>)
      modifies this`content
      ensures !started ==> r == Failure(NotStarted)
      ensures started ==> (r.Success? <==> attempt.Commits?)
      ensures started && r.Failure? ==> Reported(attempt) == Some(r.error)
      ensures r.Success? ==> content == operation(old(content)).0 && r.value == operation(old(content)).1
      ensures r.Failure? ==> content == old(content)
    {
      if !started {
        return Failure(NotStarted);
      }
      if attempt.NoConnection? {
        return Failure(attempt.error);
      }
      var before := content;
      content := operation(before).0;
      if attempt.Raises? {
        content := before;
        return Failure(attempt.error);
      }
      if attempt.CommitFails? {
        content := before;
        return Failure(if LockContention(attempt.error) then Transient else TransactionFailed);
      }
      r := Success(operation(before).1);
    }

    // Retries the operation while the database is locked. The script says how each attempt would go,
    // and `others` what other writers have committed by then: it is to their changes, in order, that
    // the operation is added once, by the attempt that commits, or not at all.
    method Retrying<T>(operation: D -> (D, T), script: nat -> Attempt, others: nat -> D -> D, n: int, base: real)
      returns (r: Result<T>, ghost tried: nat)
      modifies this`content, this`slept
      ensures n < 1 ==> r == Failure(NoAttempt) && tried == 0
      ensures n >= 1 && !started ==> r == Failure(NotStarted) && tried == 1 && slept == old(slept)
      ensures n >= 1 && started ==>
        && EndsAt(script, n, tried)
        && slept == old(slept) + Delays(base, tried - 1)
        && r == match Reported(script(tried))
           case None => Success(operation(WithOthers(others, old(content), tried)).1)
           case Some(error) => Failure(if LockContention(error) then Transient else error)
      ensures content ==
        if r.Success? then operation(WithOthers(others, old(content), tried)).0
          else WithOthers(others, old(content), tried)
    {
      tried := 0;
      var k := 1;
      ghost var s := slept;
      assert s + Delays(base, 0) == s;
      hide Delay, Says;
      while k <= n
        invariant 1 <= k && tried == k - 1 && if n >= 1 then k <= n else k == 1
        invariant content == WithOthers(others, old(content), tried)
        invariant k > 1 ==> started && Locked(script(k - 1))
        invariant LockedBefore(script, k)
        invariant slept == s + Delays(base, k - 1)
        decreases n - k
      {
        tried := k;
        content := others(k)(content);
        var outcome := Transaction(operation, script(k));
        if outcome.Success? {
          return outcome, tried;
        }
        if !LockContention(outcome.error) {
          return outcome, tried;
        }
        if k >= n {
          return Failure(Transient), tried;
        }
        slept := slept + [Delay(base, k)];
        k := k + 1;
      }
      r := Failure(NoAttempt);
    }
  }

  // The caller gets a value exactly when some attempt commits after nothing but locked ones.
  lemma {:induction false} SucceedsExactlyWhen(script: nat -> Attempt, n: int, tried: nat)
    requires EndsAt(script, n, tried)
    ensures script(tried).Commits? <==> exists k: nat :: 0 < k <= n && script(k).Commits? && LockedBefore(script, k)
  {
    forall k: nat | 0 < k <= n && script(k).Commits? && LockedBefore(script, k) ensures k == tried {
      assert EndsAt(script, n, k);
    }
  }
}
