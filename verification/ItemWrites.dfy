/** What a write reports for each requested item, and why the report can be relied on. */
module ItemWrites {
  import opened Wrappers
  import opened Words
  import opened Automation
  import opened Encode
  import opened Batch
  import opened Items
  import opened Collections
  import opened ListSort

  datatype Cause = Unsent | ItemMissing | Unwritable(e: ValueError) | Blocked(error: OpError)

  datatype WriteError =
    | NotAttempted(cause: Cause)
    | Unknown(e: OpError)
    | CallFailed(code: int32)
    | ItemFailed(code: int32)
    | CallerError(error: OpError)  // what the caller found before the write, passed on as it is

  /** The order of Go strings: bytes compared from the left. */
  predicate ByteLess(a: Bytes, b: Bytes) {
    if b == [] then false
    else if a == [] then true
    else a[0] < b[0] || (a[0] == b[0] && ByteLess(a[1..], b[1..]))
  }

  lemma {:induction false} ByteLessIrreflexive(a: Bytes)
    ensures !ByteLess(a, a)
  {
    if a != [] {
      ByteLessIrreflexive(a[1..]);
    }
  }

  lemma {:induction false} ByteLessTotal(a: Bytes, b: Bytes)
    requires a != b
    ensures ByteLess(a, b) || ByteLess(b, a)
  {
    if a != [] && b != [] && a[0] == b[0] {
      assert a == [a[0]] + a[1..] && b == [b[0]] + b[1..];
      ByteLessTotal(a[1..], b[1..]);
    }
  }

  lemma {:induction false} ByteLessTransitive(a: Bytes, b: Bytes, c: Bytes)
    requires ByteLess(a, b) && ByteLess(b, c)
    ensures ByteLess(a, c)
  {
    if a != [] && a[0] == b[0] && b[0] == c[0] {
      ByteLessTransitive(a[1..], b[1..], c[1..]);
    }
  }

  lemma ByteOrder(s: set<ItemId>)
    ensures StrictOrder(ByteLess, s)
  {
    forall x | x in s ensures !ByteLess(x, x) { ByteLessIrreflexive(x); }
    forall x, y | x in s && y in s && x != y ensures ByteLess(x, y) || ByteLess(y, x) { ByteLessTotal(x, y); }
    forall x, y, z | x in s && y in s && z in s && ByteLess(x, y) && ByteLess(y, z)
      ensures ByteLess(x, z)
    {
      ByteLessTransitive(x, y, z);
    }
  }

  /** What a write is asked to do in the state of its group, with the values already encoded. */
  datatype Job = Job(items: map<ItemId, Registration>, values: map<ItemId, Result<Variant>>)

  function JobFor(fl: Floats, items: map<ItemId, Registration>, values: map<ItemId, Value>): Job {
    Job(items, map id | id in values :: WriteVariant(fl, values[id]))
  }

  predicate Writable(job: Job, id: ItemId) {
    id in job.values && id in job.items && job.values[id].Ok?
  }

  /** The items that are sent, in order. */
  function Writables(job: Job, ids: seq<ItemId>): seq<ItemId> {
    if ids == [] then []
    else
      var id := ids[|ids| - 1];
      Writables(job, ids[..|ids| - 1]) + if Writable(job, id) then [id] else []
  }

  /** The handle and the encoded value of each item that is sent. */
  function Assignments(job: Job, ids: seq<ItemId>): (args: seq<Arg>)
    ensures |args| == |Writables(job, ids)|
  {
    if ids == [] then []
    else
      var id := ids[|ids| - 1];
      Assignments(job, ids[..|ids| - 1]) +
      if Writable(job, id) then [Assign(job.items[id].handle, job.values[id].value)] else []
  }

  /** What is reported for an item before anything is sent. */
  function Prepared(job: Job, id: ItemId): WriteError {
    if id !in job.items then NotAttempted(ItemMissing)
    else if id !in job.values then NotAttempted(Unsent)
    else
      match job.values[id]
      case Err(e) => NotAttempted(Unwritable(e))
      case Ok(_) => NotAttempted(Unsent)
  }

  /** What a reply that does not answer every item says about those it was asked for. */
  function Failure(r: Reply<()>): WriteError {
    match r
    case Lost => Unknown(CallLost)
    case Replied(h, _, _) => if h < 0 then CallFailed(h) else Unknown(MissingArrays)
  }

  /** The error of the whole write. */
  function WriteStop(n: nat, reply: nat -> Reply<()>): Option<WriteError> {
    var c := Stop(n, n, reply, false, 0);
    if Start(c) >= n then None else Some(Failure(reply(c)))
  }

  /** The report on the p-th sent item when codes are answered and the request for the items up
      to sent failed. */
  function SentAnswer(codes: seq<int32>, sent: nat, failure: Option<WriteError>, p: nat): Option<WriteError> {
    if p < |codes| then (if codes[p] < 0 then Some(ItemFailed(codes[p])) else None)
    else if p < sent && failure.Some? then failure
    else Some(NotAttempted(Unsent))
  }

  ghost predicate Report(out: map<ItemId, Option<WriteError>>, job: Job, known: seq<ItemId>, codes: seq<int32>,
                         sent: nat, failure: Option<WriteError>)
  {
    && out.Keys == job.values.Keys
    && (forall id :: id in out && id !in known ==> out[id] == Some(Prepared(job, id)))
    && (forall p :: 0 <= p < |known| ==> known[p] in out && out[known[p]] == SentAnswer(codes, sent, failure, p))
  }

  /** The requested ids in byte order. */
  ghost predicate Requested(job: Job, keys: seq<ItemId>) {
    Distinct(keys) && Elements(keys) == job.values.Keys
  }

  lemma SortedRequest(job: Job, keys: seq<ItemId>)
    requires Requested(job, keys)
    ensures Requested(job, Sort(ByteLess, keys))
  {
    ByteOrder(Elements(keys));
    SortOrdered(ByteLess, keys);
    OrderedDistinct(Sort(ByteLess, keys));
  }

  lemma OrderedDistinct(ids: seq<ItemId>)
    requires Ordered(ByteLess, ids)
    ensures Distinct(ids)
  {
    forall i, j | 0 <= i < j < |ids|
      ensures ids[i] != ids[j]
    {
      ByteLessIrreflexive(ids[i]);
    }
  }

  /** What is sent does not depend on the order of the map iteration. */
  lemma OrderIrrelevant(job: Job, keys: seq<ItemId>, other: seq<ItemId>)
    requires Requested(job, keys) && Requested(job, other)
    ensures Sort(ByteLess, keys) == Sort(ByteLess, other)
  {
    ByteOrder(Elements(keys));
    SortIsCanonical(ByteLess, keys, other);
  }

  /** The outcome is determined by what is sent and answered: two reports on one job agree. */
  lemma OneReport(out: map<ItemId, Option<WriteError>>, other: map<ItemId, Option<WriteError>>, job: Job,
                  known: seq<ItemId>, codes: seq<int32>, sent: nat, failure: Option<WriteError>)
    requires Report(out, job, known, codes, sent, failure) && Report(other, job, known, codes, sent, failure)
    ensures out == other
  {
    forall id | id in out
      ensures out[id] == other[id]
    {
      if id in known {
        var p :| 0 <= p < |known| && known[p] == id;
      }
    }
  }

  /** The reports of two writes of one job to one server agree, whatever orders the map of values
      was iterated in. */
  lemma SameReport(out: map<ItemId, Option<WriteError>>, other: map<ItemId, Option<WriteError>>, job: Job,
                   keys: seq<ItemId>, others: seq<ItemId>, reply: nat -> Reply<()>)
    requires Requested(job, keys) && Requested(job, others)
    requires WrittenAll(job, Writables(job, Sort(ByteLess, keys)), reply, out,
                        WriteStop(|Writables(job, Sort(ByteLess, keys))|, reply))
    requires WrittenAll(job, Writables(job, Sort(ByteLess, others)), reply, other,
                        WriteStop(|Writables(job, Sort(ByteLess, others))|, reply))
    ensures out == other
  {
    OrderIrrelevant(job, keys, others);
    var known := Writables(job, Sort(ByteLess, keys));
    var n := |known|;
    OneReport(out, other, job, known, AllCodes(n, n, reply, false), Sent(n, n, reply, false), WriteStop(n, reply));
  }

  lemma {:induction false} WritablesFacts(job: Job, ids: seq<ItemId>)
    requires Distinct(ids)
    ensures Distinct(Writables(job, ids))
    ensures forall id :: id in Writables(job, ids) <==> id in ids && Writable(job, id)
  {
    if ids != [] {
      var front := ids[..|ids| - 1];
      WritablesFacts(job, front);
      assert ids == front + [ids[|ids| - 1]];
    }
  }

  /** A complete reply gave the id a non-negative code. */
  ghost predicate Acknowledged(known: seq<ItemId>, codes: seq<int32>, id: ItemId) {
    exists p :: 0 <= p < |known| && known[p] == id && p < |codes| && codes[p] >= 0
  }

  /** The id was in a request that was lost or came back without all its results. */
  ghost predicate InDoubt(known: seq<ItemId>, d: nat, m: nat, reply: nat -> Reply<()>, id: ItemId) {
    && (exists p :: 0 <= p < |known| && known[p] == id && d <= p < m)
    && (reply(ChunkOf(d)).Lost? || reply(ChunkOf(d)).hresult >= 0)
  }

  /** The report tells exactly what is known.  Not attempted: the id was in no request.  Nil: a
      complete reply gave the id a non-negative code.  Unknown: the request that carried the id
      was lost or came back without all its results. */
  lemma ReportIsExact(out: map<ItemId, Option<WriteError>>, job: Job, ids: seq<ItemId>, reply: nat -> Reply<()>,
                      id: ItemId)
    requires Distinct(ids) && id in job.values
    requires var known := Writables(job, ids);
             var n := |known|;
             Report(out, job, known, AllCodes(n, n, reply, false), Sent(n, n, reply, false), WriteStop(n, reply))
    ensures var known := Writables(job, ids);
            var n := |known|;
            var d, m := Confirmed(n, n, reply, false), Sent(n, n, reply, false);
            && id in out
            && (out[id].Some? && out[id].value.NotAttempted? <==>
                  id !in Carried(Calls(WriteRpc, known, Assignments(job, ids), m)))
            && (out[id].None? <==> Acknowledged(known, AllCodes(n, n, reply, false), id))
            && (out[id].Some? && out[id].value.Unknown? <==> InDoubt(known, d, m, reply, id))
  {
    var known := Writables(job, ids);
    var n := |known|;
    WritablesFacts(job, ids);
    CallsCarry(WriteRpc, known, Assignments(job, ids), Sent(n, n, reply, false));
    if id in known {
      var p :| 0 <= p < n && known[p] == id;
      ReportOnSent(out, job, known, reply, p);
    } else {
      ReportOnUnsent(out, job, known, AllCodes(n, n, reply, false), Sent(n, n, reply, false), reply, id);
    }
  }

  lemma ReportOnUnsent(out: map<ItemId, Option<WriteError>>, job: Job, known: seq<ItemId>, codes: seq<int32>, m: nat,
                       reply: nat -> Reply<()>, id: ItemId)
    requires m <= |known| && id in job.values && id !in known
    requires Report(out, job, known, codes, m, WriteStop(|known|, reply))
    ensures id in out && out[id].Some? && out[id].value.NotAttempted? && id !in known[..m]
    ensures !Acknowledged(known, codes, id) && forall d: nat :: !InDoubt(known, d, m, reply, id)
  {
    assert out[id] == Some(Prepared(job, id));
  }

  lemma ReportOnSent(out: map<ItemId, Option<WriteError>>, job: Job, known: seq<ItemId>, reply: nat -> Reply<()>,
                     p: nat)
    requires Distinct(known) && p < |known|
    requires var n := |known|;
             Report(out, job, known, AllCodes(n, n, reply, false), Sent(n, n, reply, false), WriteStop(n, reply))
    ensures var n := |known|;
            var d, m := Confirmed(n, n, reply, false), Sent(n, n, reply, false);
            && known[p] in out
            && (out[known[p]].Some? && out[known[p]].value.NotAttempted? <==> known[p] !in known[..m])
            && (out[known[p]].None? <==> Acknowledged(known, AllCodes(n, n, reply, false), known[p]))
            && (out[known[p]].Some? && out[known[p]].value.Unknown? <==> InDoubt(known, d, m, reply, known[p]))
  {
    var n := |known|;
    var m := Sent(n, n, reply, false);
    StopFailure(n, reply);
    SentAt(known, known[p], p, m);
    OnlyAt(known, AllCodes(n, n, reply, false), Confirmed(n, n, reply, false), m, reply, p);
    SentAnswerCases(AllCodes(n, n, reply, false), m, WriteStop(n, reply), p);
  }

  /** The whole report, id by id: not registered, not encodable with the error of the encoder, the
      item's own code, the failure of the one request without a complete answer, or not sent. */
  ghost predicate WriteSays(out: map<ItemId, Option<WriteError>>, job: Job, known: seq<ItemId>,
                            reply: nat -> Reply<()>, err: Option<WriteError>)
  {
    var d, m := Confirmed(|known|, |known|, reply, false), Sent(|known|, |known|, reply, false);
    && out.Keys == job.values.Keys
    && (forall id :: id in out && id !in job.items ==> out[id] == Some(NotAttempted(ItemMissing)))
    && (forall id :: id in out && id in job.items && job.values[id].Err? ==>
          out[id] == Some(NotAttempted(Unwritable(job.values[id].error))))
    && (forall p :: 0 <= p < |known| ==> known[p] in out && WriteSaysOf(out[known[p]], p, d, m, reply, err))
    && (if d == |known| then err == None else err.Some? && FailureSays(err.value, reply(d / 1000)))
  }

  predicate WriteSaysOf(a: Option<WriteError>, p: nat, d: nat, m: nat, reply: nat -> Reply<()>, err: Option<WriteError>)
  {
    var r := reply(p / 1000);
    if p < d then
      && r.Replied? && r.hresult >= 0 && p % 1000 < |r.errors|
      && a == if r.errors[p % 1000] < 0 then Some(ItemFailed(r.errors[p % 1000])) else None
    else if p < m then err.Some? && a == err
    else a == Some(NotAttempted(Unsent))
  }

  /** A request without a complete answer: in doubt, unless the server refused all of it. */
  predicate FailureSays(e: WriteError, r: Reply<()>) {
    if r.Lost? then e == Unknown(CallLost)
    else if r.hresult < 0 then e == CallFailed(r.hresult)
    else e == Unknown(MissingArrays)
  }

  lemma WriteMeans(out: map<ItemId, Option<WriteError>>, job: Job, ids: seq<ItemId>, reply: nat -> Reply<()>,
                   err: Option<WriteError>)
    requires Distinct(ids) && WrittenAll(job, Writables(job, ids), reply, out, err)
    ensures WriteSays(out, job, Writables(job, ids), reply, err)
  {
    var known := Writables(job, ids);
    var n := |known|;
    var d, m := Confirmed(n, n, reply, false), Sent(n, n, reply, false);
    WritablesFacts(job, ids);
    StopFailure(n, reply);
    forall p | 0 <= p < n
      ensures WriteSaysOf(out[known[p]], p, d, m, reply, err)
    {
      if p < d {
        CodeIs(n, n, reply, false, p);
      }
    }
  }

  lemma SentAnswerCases(codes: seq<int32>, sent: nat, failure: Option<WriteError>, p: nat)
    requires failure.Some? ==> failure.value.Unknown? || failure.value.CallFailed?
    requires |codes| <= sent && (failure.None? ==> |codes| == sent)
    ensures var a := SentAnswer(codes, sent, failure, p);
            && (a.Some? && a.value.NotAttempted? <==> p >= sent)
            && (a.None? <==> p < |codes| && codes[p] >= 0)
            && (a.Some? && a.value.Unknown? <==> |codes| <= p < sent && failure.value.Unknown?)
  {}

  /** The failure a write reports is that of the one request that was not answered. */
  lemma StopFailure(n: nat, reply: nat -> Reply<()>)
    ensures var d, m := Confirmed(n, n, reply, false), Sent(n, n, reply, false);
            && (d == n ==> WriteStop(n, reply) == None)
            && (d < n ==> d < m && WriteStop(n, reply) == Some(Failure(reply(ChunkOf(d)))))
  {
    StopIsFirst(n, n, reply, false, 0, Stop(n, n, reply, false, 0));
  }

  lemma OnlyAt(known: seq<ItemId>, codes: seq<int32>, d: nat, m: nat, reply: nat -> Reply<()>, p: nat)
    requires Distinct(known) && p < |known|
    ensures Acknowledged(known, codes, known[p]) <==> p < |codes| && codes[p] >= 0
    ensures InDoubt(known, d, m, reply, known[p]) <==>
              d <= p < m && (reply(ChunkOf(d)).Lost? || reply(ChunkOf(d)).hresult >= 0)
  {}

  lemma SentAt(known: seq<ItemId>, id: ItemId, p: nat, m: nat)
    requires Distinct(known) && p < |known| && known[p] == id && m <= |known|
    ensures id in known[..m] <==> p < m
  {
    if p < m {
      assert known[..m][p] == id;
    }
  }

  /** One more code changes the report on its own item alone. */
  lemma ReportStep(out: map<ItemId, Option<WriteError>>, job: Job, known: seq<ItemId>, codes: seq<int32>)
    requires Distinct(known) && 0 < |codes| <= |known|
    requires Report(out, job, known, codes[..|codes| - 1], |codes| - 1, None)
    ensures var d := |codes| - 1;
            Report(out[known[d] := SentAnswer(codes, d + 1, None, d)], job, known, codes, d + 1, None)
  {
    var d := |codes| - 1;
    forall p | 0 <= p < |known| && p != d
      ensures known[p] != known[d] && SentAnswer(codes, d + 1, None, p) == SentAnswer(codes[..d], d, None, p)
    {}
    assert known[d] in out;
  }

  lemma FailureStep(out: map<ItemId, Option<WriteError>>, job: Job, known: seq<ItemId>, codes: seq<int32>,
                    i: nat, failure: WriteError)
    requires Distinct(known) && |codes| <= i < |known|
    requires Report(out, job, known, codes, i, Some(failure))
    ensures Report(out[known[i] := Some(failure)], job, known, codes, i + 1, Some(failure))
  {
    forall p | 0 <= p < |known| && p != i
      ensures known[p] != known[i]
      ensures SentAnswer(codes, i, Some(failure), p) == SentAnswer(codes, i + 1, Some(failure), p)
    {}
    assert known[i] in out;
  }

  /** The loop that marks the items of a request that was not answered. */
  method MarkFailed(ghost job: Job, known: seq<ItemId>, ghost codes: seq<int32>, start: nat, end: nat,
                    failure: WriteError, was: map<ItemId, Option<WriteError>>)
    returns (out: map<ItemId, Option<WriteError>>)
    requires Distinct(known) && |codes| == start <= end <= |known|
    requires Report(was, job, known, codes, start, None)
    ensures Report(out, job, known, codes, end, Some(failure))
  {
    out := was;
    for i := start to end
      invariant Report(out, job, known, codes, i, Some(failure))
    {
      FailureStep(out, job, known, codes, i, failure);
      out := out[known[i] := Some(failure)];
    }
  }

  /** What the last of the codes says about its item. */
  method RecordCode(ghost job: Job, ghost known: seq<ItemId>, ghost codes: seq<int32>, id: ItemId, error: int32,
                    was: map<ItemId, Option<WriteError>>)
    returns (out: map<ItemId, Option<WriteError>>)
    requires Distinct(known) && 0 < |codes| <= |known| && id == known[|codes| - 1] && error == codes[|codes| - 1]
    requires Report(was, job, known, codes[..|codes| - 1], |codes| - 1, None)
    ensures Report(out, job, known, codes, |codes|, None)
  {
    ReportStep(was, job, known, codes);
    ghost var d := |codes| - 1;
    ghost var final := was[known[d] := SentAnswer(codes, d + 1, None, d)];
    out := was[id := None];
    if error < 0 {
      out := out[id := Some(ItemFailed(error))];
    }
    assert out == final;
  }

  lemma CodeAt(before: seq<int32>, errors: seq<int32>, i: nat)
    requires i < |errors|
    ensures var c := (before + errors)[..|before| + i + 1];
            c[..|c| - 1] == (before + errors)[..|before| + i] && c[|c| - 1] == errors[i]
  {}

  /** The loop over the results of a complete reply. */
  method RecordCodes(ghost job: Job, known: seq<ItemId>, ghost before: seq<int32>, start: nat, errors: seq<int32>,
                     was: map<ItemId, Option<WriteError>>)
    returns (out: map<ItemId, Option<WriteError>>)
    requires Distinct(known) && |before| == start && start + |errors| <= |known|
    requires Report(was, job, known, before, start, None)
    ensures Report(out, job, known, before + errors, start + |errors|, None)
  {
    out := was;
    ghost var codes := before + errors;
    assert codes[..start] == before;
    for i := 0 to |errors|
      invariant Report(out, job, known, codes[..start + i], start + i, None)
    {
      CodeAt(before, errors, i);
      out := RecordCode(job, known, codes[..start + i + 1], known[start + i], errors[i], out);
    }
    assert codes[..start + |errors|] == codes;
  }

  lemma WritablesStep(job: Job, ids: seq<ItemId>, i: nat)
    requires i < |ids|
    ensures var id := ids[i];
            && Writables(job, ids[..i + 1]) == Writables(job, ids[..i]) + (if Writable(job, id) then [id] else [])
            && Assignments(job, ids[..i + 1]) == Assignments(job, ids[..i]) +
               if Writable(job, id) then [Assign(job.items[id].handle, job.values[id].value)] else []
  {
    NextPrefix(ids, i);
  }

  /** The first loop of write has reported on ids. */
  ghost predicate PreparedFor(out: map<ItemId, Option<WriteError>>, job: Job, ids: seq<ItemId>) {
    && (forall id :: id in out <==> id in ids)
    && (forall id :: id in out ==> out[id] == Some(Prepared(job, id)))
  }

  lemma PreparedStep(out: map<ItemId, Option<WriteError>>, job: Job, ids: seq<ItemId>, i: nat)
    requires i < |ids| && PreparedFor(out, job, ids[..i])
    ensures PreparedFor(out[ids[i] := Some(Prepared(job, ids[i]))], job, ids[..i + 1])
  {
    assert ids[..i + 1] == ids[..i] + [ids[i]];
  }

  lemma NothingSent(out: map<ItemId, Option<WriteError>>, job: Job, ids: seq<ItemId>)
    requires Requested(job, ids) && PreparedFor(out, job, ids)
    ensures Distinct(Writables(job, ids)) && Report(out, job, Writables(job, ids), [], 0, None)
  {
    var known := Writables(job, ids);
    WritablesFacts(job, ids);
    forall id
      ensures id in out <==> id in job.values
    {
      assert id in Elements(ids) <==> id in ids;
    }
    forall p | 0 <= p < |known|
      ensures known[p] in out && out[known[p]] == Some(NotAttempted(Unsent))
    {
      assert known[p] in known;
    }
  }

  /** What the first loop of write finds out about one id. */
  method PrepareItem(fl: Floats, items: map<ItemId, Registration>, values: map<ItemId, Value>, ghost job: Job,
                     id: ItemId)
    returns (report: WriteError, arg: Option<Arg>)
    requires id in values && job == JobFor(fl, items, values)
    ensures report == Prepared(job, id)
    ensures arg == if Writable(job, id) then Some(Assign(job.items[id].handle, job.values[id].value)) else None
  {
    if id !in items {
      return NotAttempted(ItemMissing), None;
    }
    var variant := WriteVariant(fl, values[id]);
    if variant.Err? {
      return NotAttempted(Unwritable(variant.error)), None;
    }
    return NotAttempted(Unsent), Some(Assign(items[id].handle, variant.value));
  }

  /** The first loop of write, which sends nothing. */
  method Prepare(fl: Floats, items: map<ItemId, Registration>, values: map<ItemId, Value>, ghost job: Job,
                 ids: seq<ItemId>)
    returns (out: map<ItemId, Option<WriteError>>, known: seq<ItemId>, args: seq<Arg>)
    requires Requested(job, ids) && job == JobFor(fl, items, values)
    ensures known == Writables(job, ids) && args == Assignments(job, ids)
    ensures Distinct(known) && Report(out, job, known, [], 0, None)
  {
    out, known, args := map[], [], [];
    for i := 0 to |ids|
      invariant PreparedFor(out, job, ids[..i])
      invariant known == Writables(job, ids[..i]) && args == Assignments(job, ids[..i])
    {
      var id := ids[i];
      assert id in Elements(ids);
      WritablesStep(job, ids, i);
      PreparedStep(out, job, ids, i);
      var report, arg := PrepareItem(fl, items, values, job, id);
      out := out[id := Some(report)];
      if arg.Some? {
        known := known + [id];
        args := args + [arg.value];
      }
    }
    assert ids[..|ids|] == ids;
    NothingSent(out, job, ids);
  }

  // ---- the loop over the chunks ----

  /** The items before chunk c are reported on. */
  ghost predicate WrittenUpTo(job: Job, known: seq<ItemId>, reply: nat -> Reply<()>, c: nat,
                              result: map<ItemId, Option<WriteError>>)
  {
    var n := |known|;
    var done := Least(Start(c), n);
    && Stop(n, n, reply, false, 0) == Stop(n, n, reply, false, c)
    && done <= Confirmed(n, n, reply, false)
    && Report(result, job, known, Codes(n, n, reply, false, done), done, None)
  }

  ghost predicate WrittenAll(job: Job, known: seq<ItemId>, reply: nat -> Reply<()>,
                             result: map<ItemId, Option<WriteError>>, err: Option<WriteError>)
  {
    var n := |known|;
    && Report(result, job, known, AllCodes(n, n, reply, false), Sent(n, n, reply, false), err)
    && err == WriteStop(n, reply)
  }

  lemma WriteEnds(job: Job, known: seq<ItemId>, reply: nat -> Reply<()>, c: nat,
                  result: map<ItemId, Option<WriteError>>)
    requires WrittenUpTo(job, known, reply, c, result) && Start(c) >= |known|
    ensures WrittenAll(job, known, reply, result, None)
    ensures Least(Start(c), |known|) == Sent(|known|, |known|, reply, false)
  {
    StopsAt(|known|, |known|, reply, false, c);
  }

  /** The request for chunk c was not answered. */
  method RejectWrite(ghost job: Job, known: seq<ItemId>, ghost reply: nat -> Reply<()>, c: nat, failure: WriteError,
                     was: map<ItemId, Option<WriteError>>)
    returns (result: map<ItemId, Option<WriteError>>)
    requires Distinct(known) && Start(c) < |known| && WrittenUpTo(job, known, reply, c, was)
    requires !Completes(|known|, |known|, reply, false, c) && failure == Failure(reply(c))
    ensures WrittenAll(job, known, reply, result, Some(failure))
  {
    ghost var n := |known|;
    StopsAt(n, n, reply, false, c);
    result := MarkFailed(job, known, Codes(n, n, reply, false, Start(c)), Start(c), End(|known|, c), failure, was);
  }

  /** The request for chunk c was answered completely. */
  method AcceptWrite(ghost job: Job, known: seq<ItemId>, ghost reply: nat -> Reply<()>, c: nat, errors: seq<int32>,
                     was: map<ItemId, Option<WriteError>>)
    returns (result: map<ItemId, Option<WriteError>>)
    requires Distinct(known) && Start(c) < |known| && WrittenUpTo(job, known, reply, c, was)
    requires Completes(|known|, |known|, reply, false, c) && errors == reply(c).errors
    ensures WrittenUpTo(job, known, reply, c + 1, result)
  {
    ghost var n := |known|;
    StopAfter(n, n, reply, false, c);
    ChunkCodes(n, n, reply, false, c);
    result := RecordCodes(job, known, Codes(n, n, reply, false, Start(c)), Start(c), errors, was);
  }
}
