/** Running a callback inside one database transaction. */
module UnitOfWork {
  import opened Schema
  import opened Sql
  import opened Database

  /** What a service reports when a call does not succeed. */
  datatype AppError = Unauthenticated | PermissionDenied | ResourceNotFound | AlreadyExists | Internal

  /** The operations of the repositories that a callback is handed. */
  datatype Operation =
    | UpdatePassword(user: Uuid, password: PasswordHash)
    | ConsumeReset(hash: SecretHash)
    | SaveRefresh(id: Uuid, token: RefreshToken)
    | ConsumeRefresh(id: Uuid)
    | DeleteRefreshByUser(user: Uuid)
    | InvalidateOtps(identifier: string)
    | SaveOtp(id: Uuid, otp: Otp)

  datatype Action = Issue(op: Operation) | Stop(result: Option<AppError>)

  /**
    * A callback: what it does next is any function of the replies it has had so far. It issues
    * at most `limit` operations; after that many, `finish` is the error it returns, if any.
    */
  datatype Work = Work(
    limit: nat,
    next: seq<Reply> -> Action,
    finish: seq<Reply> -> Option<AppError>
  )

  /** Where the first failure of the connection strikes, if one does. */
  datatype TxFault = NoFault | AtBegin | AtOperation(n: nat) | AtCommit

  ghost function Perform(t: Tables, op: Operation, now: Time): Outcome {
    match op
    case UpdatePassword(user, password) => UpdateUserPassword(t, user, password)
    case ConsumeReset(hash) => ConsumePasswordResetToken(t, hash, now)
    case SaveRefresh(id, token) => SaveRefreshToken(t, id, token)
    case ConsumeRefresh(id) => ConsumeRefreshToken(t, id, now)
    case DeleteRefreshByUser(user) => DeleteRefreshTokensByUserID(t, user)
    case InvalidateOtps(identifier) => InvalidateOtpCodesByIdentifier(t, identifier)
    case SaveOtp(id, otp) => SaveOtpCode(t, id, otp)
  }

  /** One operation inside a transaction; after a failed one the transaction refuses all others. */
  ghost function PerformInTx(t: Tables, aborted: bool, op: Operation, now: Time, fault: bool): Outcome {
    if aborted then Outcome(t, Failed(InFailedTransaction)) else Attempt(t, fault, Perform(t, op, now))
  }

  datatype TxEnd = TxEnd(tables: Tables, aborted: bool, result: Option<AppError>)

  /** The run of a callback from the point where it has had the replies `had`. */
  ghost function Conduct(t: Tables, w: Work, had: seq<Reply>, aborted: bool, now: Time, fault: TxFault): TxEnd
    requires |had| <= w.limit
    decreases w.limit - |had|
  {
    if |had| == w.limit then TxEnd(t, aborted, w.finish(had))
    else match w.next(had)
      case Stop(result) => TxEnd(t, aborted, result)
      case Issue(op) =>
        var o := PerformInTx(t, aborted, op, now, fault == AtOperation(|had|));
        Conduct(o.tables, w, had + [o.reply], aborted || o.reply.Failed?, now, fault)
  }

  /** One more operation of a callback's run. */
  lemma ConductIssue(t: Tables, w: Work, had: seq<Reply>, op: Operation, now: Time, fault: TxFault)
    requires |had| < w.limit && w.next(had) == Issue(op)
    ensures var o := PerformInTx(t, false, op, now, fault == AtOperation(|had|));
      Conduct(t, w, had, false, now, fault) == Conduct(o.tables, w, had + [o.reply], o.reply.Failed?, now, fault)
  {
  }

  /** The replies a callback has had when it ends: all that it can hand to its caller. */
  ghost function Heard(t: Tables, w: Work, had: seq<Reply>, aborted: bool, now: Time, fault: TxFault): seq<Reply>
    requires |had| <= w.limit
    decreases w.limit - |had|
  {
    if |had| == w.limit then had
    else match w.next(had)
      case Stop(_) => had
      case Issue(op) =>
        var o := PerformInTx(t, aborted, op, now, fault == AtOperation(|had|));
        Heard(o.tables, w, had + [o.reply], aborted || o.reply.Failed?, now, fault)
  }

  datatype TxResult = TxResult(tables: Tables, error: Option<AppError>)

  /** Begin, run the callback, then commit or roll back. */
  ghost function ExecTx(t: Tables, w: Work, now: Time, fault: TxFault): TxResult {
    if fault == AtBegin then TxResult(t, Some(Internal)) else
    var end := Conduct(t, w, [], false, now, fault);
    if end.result.Some? then TxResult(t, end.result)
    else if end.aborted || fault == AtCommit then TxResult(t, Some(Internal))
    else TxResult(end.tables, None)
  }

  class Transactor {
    const db: Db

    constructor (db: Db)
      ensures this.db == db
    {
      this.db := db;
    }

    method Exec(w: Work, now: Time, fault: TxFault) returns (error: Option<AppError>, had: seq<Reply>)
      requires db.Valid()
      modifies db
      ensures db.Valid()
      ensures TxResult(db.Snapshot(), error) == ExecTx(old(db.Snapshot()), w, now, fault)
      ensures fault != AtBegin ==> had == Heard(old(db.Snapshot()), w, [], false, now, fault)
    {
      had := [];
      if fault == AtBegin {
        return Some(Internal), had;
      }
      var tx := new Db.CopyOf(db);
      var aborted := false;
      var result := None;
      var stopped := false;
      while !stopped
        invariant |had| <= w.limit
        invariant tx.Valid() && fresh(tx) && db.Snapshot() == old(db.Snapshot())
        invariant Conduct(old(db.Snapshot()), w, [], false, now, fault) ==
          if stopped then TxEnd(tx.Snapshot(), aborted, result)
          else Conduct(tx.Snapshot(), w, had, aborted, now, fault)
        invariant Heard(old(db.Snapshot()), w, [], false, now, fault) ==
          if stopped then had else Heard(tx.Snapshot(), w, had, aborted, now, fault)
        decreases !stopped, w.limit - |had|
      {
        if |had| == w.limit {
          result, stopped := w.finish(had), true;
        } else {
          match w.next(had)
          case Stop(r) =>
            result, stopped := r, true;
          case Issue(op) =>
            var reply := Failed(InFailedTransaction);
            if !aborted {
              reply := Dispatch(tx, op, now, fault == AtOperation(|had|));
            }
            had, aborted := had + [reply], aborted || reply.Failed?;
        }
      }
      if result.Some? {
        return result, had;
      }
      if aborted || fault == AtCommit {
        return Some(Internal), had;
      }
      db.Publish(tx);
      error := None;
    }

    static method Dispatch(tx: Db, op: Operation, now: Time, fault: bool) returns (r: Reply)
      requires tx.Valid()
      modifies tx
      ensures tx.Valid()
      ensures Outcome(tx.Snapshot(), r) == Attempt(old(tx.Snapshot()), fault, Perform(old(tx.Snapshot()), op, now))
    {
      match op
      case UpdatePassword(user, password) => r := tx.UpdateUserPassword(user, password, fault);
      case ConsumeReset(hash) => r := tx.ConsumePasswordResetToken(hash, now, fault);
      case SaveRefresh(id, token) => r := tx.SaveRefreshToken(id, token, fault);
      case ConsumeRefresh(id) => r := tx.ConsumeRefreshToken(id, now, fault);
      case DeleteRefreshByUser(user) => r := tx.DeleteRefreshTokensByUserID(user, fault);
      case InvalidateOtps(identifier) => r := tx.InvalidateOtpCodesByIdentifier(identifier, fault);
      case SaveOtp(id, otp) => r := tx.SaveOtpCode(id, otp, fault);
    }
  }

  // --- Atomicity ---

  /** The tables after a sequence of operations performed one after the other. */
  ghost function After(t: Tables, ops: seq<Operation>, now: Time): Tables
    decreases |ops|
  {
    if ops == [] then t else After(Perform(t, ops[0], now).tables, ops[1..], now)
  }

  predicate ReturnsNil(w: Work, had: seq<Reply>) {
    || (|had| == w.limit && w.finish(had) == None)
    || (|had| < w.limit && w.next(had) == Stop(None))
  }

  /**
    * From the replies `had` on, `w` issues exactly `ops`, none of them fails when they are
    * performed one after the other on `t`, and then `w` returns nil.
    */
  ghost predicate Completes(t: Tables, w: Work, had: seq<Reply>, ops: seq<Operation>, now: Time)
    decreases ops
  {
    if ops == [] then
      ReturnsNil(w, had)
    else
      var o := Perform(t, ops[0], now);
      && |had| < w.limit
      && w.next(had) == Issue(ops[0])
      && !o.reply.Failed?
      && Completes(o.tables, w, had + [o.reply], ops[1..], now)
  }

  /** The fault, if any, strikes before a callback that issues `n` operations is committed. */
  predicate Strikes(fault: TxFault, n: nat) {
    match fault
    case NoFault => false
    case AtBegin => true
    case AtOperation(k) => k < n
    case AtCommit => true
  }

  /** An aborted transaction changes nothing further and stays aborted. */
  lemma {:induction false} AbortedStays(t: Tables, w: Work, had: seq<Reply>, now: Time, fault: TxFault)
    requires |had| <= w.limit
    ensures Conduct(t, w, had, true, now, fault).aborted
    decreases w.limit - |had|
  {
    if |had| < w.limit && w.next(had).Issue? {
      AbortedStays(t, w, had + [Failed(InFailedTransaction)], now, fault);
    }
  }

  /** A callback that ends well did so on some fault-free sequence of operations. */
  lemma {:induction false} EndsWellSequentially(t: Tables, w: Work, had: seq<Reply>, now: Time, fault: TxFault)
    returns (ops: seq<Operation>)
    requires |had| <= w.limit
    requires var end := Conduct(t, w, had, false, now, fault); end.result == None && !end.aborted
    ensures Completes(t, w, had, ops, now)
    ensures Conduct(t, w, had, false, now, fault).tables == After(t, ops, now)
    ensures fault.AtOperation? ==> fault.n < |had| || |had| + |ops| <= fault.n
    decreases w.limit - |had|
  {
    if |had| == w.limit || w.next(had).Stop? {
      ops := [];
    } else {
      var op := w.next(had).op;
      var o := PerformInTx(t, false, op, now, fault == AtOperation(|had|));
      if o.reply.Failed? {
        AbortedStays(o.tables, w, had + [o.reply], now, fault);
        assert false;
      }
      var rest := EndsWellSequentially(o.tables, w, had + [o.reply], now, fault);
      ops := [op] + rest;
      assert ops[1..] == rest;
    }
  }

  /** Conversely, a completing sequence of operations on which no fault strikes is what is run. */
  lemma {:induction false} SequenceIsConducted(
    t: Tables, w: Work, had: seq<Reply>, ops: seq<Operation>, now: Time, fault: TxFault)
    requires Completes(t, w, had, ops, now)
    requires fault.AtOperation? ==> fault.n < |had| || |had| + |ops| <= fault.n
    ensures |had| <= w.limit
    ensures Conduct(t, w, had, false, now, fault) == TxEnd(After(t, ops, now), false, None)
    decreases ops
  {
    if ops != [] {
      var o := Perform(t, ops[0], now);
      SequenceIsConducted(o.tables, w, had + [o.reply], ops[1..], now, fault);
    }
  }

  /**
    * All or nothing, for every callback and every fault: `Exec` returns nil exactly when the
    * callback completes some sequence of operations that no fault strikes, the database is then
    * exactly as if those operations had been performed in order, and in every other case the
    * database is unchanged.
    */
  lemma ExecIsAtomic(t: Tables, w: Work, now: Time, fault: TxFault)
    ensures ExecTx(t, w, now, fault).error == None <==>
      exists ops :: Completes(t, w, [], ops, now) && !Strikes(fault, |ops|)
    ensures forall ops | Completes(t, w, [], ops, now) && !Strikes(fault, |ops|) ::
      ExecTx(t, w, now, fault) == TxResult(After(t, ops, now), None)
    ensures ExecTx(t, w, now, fault).error != None ==> ExecTx(t, w, now, fault).tables == t
  {
    if ExecTx(t, w, now, fault).error == None {
      var ops := EndsWellSequentially(t, w, [], now, fault);
      assert Completes(t, w, [], ops, now) && !Strikes(fault, |ops|);
    }
    forall ops | Completes(t, w, [], ops, now) && !Strikes(fault, |ops|)
      ensures ExecTx(t, w, now, fault) == TxResult(After(t, ops, now), None)
    {
      SequenceIsConducted(t, w, [], ops, now, fault);
    }
  }

  // --- What is answered ---

  /** What a callback returns when it has had these replies. */
  function Returned(w: Work, had: seq<Reply>): Option<AppError>
    requires |had| <= w.limit
  {
    if |had| == w.limit then w.finish(had) else
    match w.next(had)
    case Stop(result) => result
    case Issue(_) => None
  }

  lemma {:induction false} ConductReturns(t: Tables, w: Work, had: seq<Reply>, aborted: bool, now: Time, fault: TxFault)
    requires |had| <= w.limit
    ensures var all := Heard(t, w, had, aborted, now, fault);
      |all| <= w.limit && Conduct(t, w, had, aborted, now, fault).result == Returned(w, all)
    decreases w.limit - |had|
  {
    if |had| < w.limit && w.next(had).Issue? {
      var o := PerformInTx(t, aborted, w.next(had).op, now, fault == AtOperation(|had|));
      ConductReturns(o.tables, w, had + [o.reply], aborted || o.reply.Failed?, now, fault);
    }
  }

  /**
    * Once the transaction has begun, an error of the callback is answered as it is; every other
    * failure, of begin or commit, is answered as an internal error, and changes no table.
    */
  lemma ExecAnswers(t: Tables, w: Work, now: Time, fault: TxFault)
    ensures var x := ExecTx(t, w, now, fault);
      && (fault == AtBegin ==> x == TxResult(t, Some(Internal)))
      && (fault != AtBegin ==>
            var had := Heard(t, w, [], false, now, fault);
            && |had| <= w.limit
            && (Returned(w, had).Some? ==> x == TxResult(t, Returned(w, had)))
            && (Returned(w, had) == None && x.error.Some? ==> x == TxResult(t, Some(Internal)))
            && (Returned(w, had) == None && fault == AtCommit ==> x == TxResult(t, Some(Internal))))
  {
    if fault != AtBegin {
      ConductReturns(t, w, [], false, now, fault);
    }
  }

  /** A lost operation, once issued, is answered with an error and changes no table. */
  lemma {:induction false} LostOperationAborts(
    t: Tables, w: Work, had: seq<Reply>, aborted: bool, now: Time, fault: TxFault)
    requires |had| <= w.limit && fault.AtOperation? && |had| <= fault.n
    requires fault.n < |Heard(t, w, had, aborted, now, fault)|
    ensures Conduct(t, w, had, aborted, now, fault).aborted
    decreases w.limit - |had|
  {
    var o := PerformInTx(t, aborted, w.next(had).op, now, fault == AtOperation(|had|));
    if aborted || o.reply.Failed? {
      AbortedStays(o.tables, w, had + [o.reply], now, fault);
    } else {
      LostOperationAborts(o.tables, w, had + [o.reply], false, now, fault);
    }
  }

  lemma LostOperationFails(t: Tables, w: Work, now: Time, n: nat)
    requires n < |Heard(t, w, [], false, now, AtOperation(n))|
    ensures var x := ExecTx(t, w, now, AtOperation(n)); x.error.Some? && x.tables == t
  {
    LostOperationAborts(t, w, [], false, now, AtOperation(n));
  }
}
