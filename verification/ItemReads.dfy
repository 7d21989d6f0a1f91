/** What a read answers: the specification of readLocked and of the conversion of one item state. */
module ItemReads {
  import opened Wrappers
  import opened Words
  import opened Automation
  import opened Encode
  import opened Decode
  import opened Batch
  import opened Items

  /** One entry of a Read reply. */
  datatype ReadState = ReadState(
    client: uint32,
    timeLow: uint32,
    timeHigh: uint32,
    quality: uint16,
    variant: Option<Variant>
  )

  datatype ReadAnswer =
    | NotRegistered
    | Failed(code: int32)
    | NoVariant
    | BadValue(e: ValueError)
    | Good(value: Value, quality: int16, sourceMs: int)

  datatype ReadResult = ReadResult(id: ItemId, answer: ReadAnswer)

  function AnswerOf(fl: Floats, s: ReadState, code: int32): ReadAnswer {
    if code < 0 then Failed(code)
    else if s.variant.None? then NoVariant
    else
      match ScalarValue(fl, s.variant)
      case Err(e) => BadValue(e)
      case Ok(v) =>
        var ticks := s.timeLow as int + s.timeHigh as int * 0x1_0000_0000;
        Good(v, I16(s.quality), ticks / 10000 - 11644473600000)
  }

  /** How one entry of a reply becomes an answer. */
  type Reader = (ReadState, int32) -> ReadAnswer

  function ReaderFor(fl: Floats): Reader {
    (s, code) => AnswerOf(fl, s, code)
  }

  /** The answers of the first d registered items of the request. */
  function ReadAnswers(read: Reader, n: nat, reply: nat -> Reply<ReadState>, d: nat): (answers: seq<ReadAnswer>)
    requires d <= Confirmed(n, n, reply, true)
    ensures |answers| == d
  {
    if d == 0 then []
    else
      var p := d - 1;
      ConfirmedIsAnswered(n, n, reply, true, p);
      ReadAnswers(read, n, reply, p) + [read(reply(ChunkOf(p)).states[Offset(p)], ItemError(n, n, reply, true, p))]
  }

  function AllAnswers(read: Reader, n: nat, reply: nat -> Reply<ReadState>): (answers: seq<ReadAnswer>)
    ensures |answers| <= n
  {
    ReadAnswers(read, n, reply, Confirmed(n, n, reply, true))
  }

  /** The positions of the registered ids in a request. */
  function Positions(items: map<ItemId, Registration>, ids: seq<ItemId>): (ps: seq<nat>)
    ensures |ps| <= |ids|
  {
    if ids == [] then []
    else
      var front := ids[..|ids| - 1];
      Positions(items, front) + if ids[|ids| - 1] in items then [|ids| - 1] else []
  }

  /** The number of registered ids before position j: which answer belongs to it. */
  function Rank(items: map<ItemId, Registration>, ids: seq<ItemId>, j: nat): nat
    requires j <= |ids|
  {
    |Positions(items, ids[..j])|
  }

  /** The full per-position answer once the first |answers| registered items are answered. */
  function FullAt(items: map<ItemId, Registration>, ids: seq<ItemId>, answers: seq<ReadAnswer>, j: nat): ReadResult
    requires j < |ids|
  {
    var q := Rank(items, ids, j);
    ReadResult(ids[j], if ids[j] in items && q < |answers| then answers[q] else NotRegistered)
  }

  /** An unregistered id is observed without asking; another when its answer arrived. */
  predicate ObservedAt(items: map<ItemId, Registration>, ids: seq<ItemId>, d: nat, j: nat)
    requires j < |ids|
  {
    ids[j] !in items || Rank(items, ids, j) < d
  }

  function Full(items: map<ItemId, Registration>, ids: seq<ItemId>, answers: seq<ReadAnswer>): seq<ReadResult> {
    seq(|ids|, j requires 0 <= j < |ids| => FullAt(items, ids, answers, j))
  }

  function Observed(items: map<ItemId, Registration>, ids: seq<ItemId>, d: nat): seq<bool> {
    seq(|ids|, j requires 0 <= j < |ids| => ObservedAt(items, ids, d, j))
  }

  /** The elements of xs at the marked positions, in order. */
  function Selected<T>(xs: seq<T>, marks: seq<bool>): (r: seq<T>)
    requires |xs| == |marks|
    ensures |r| <= |xs|
  {
    if xs == [] then []
    else
      var d := |xs| - 1;
      Selected(xs[..d], marks[..d]) + if marks[d] then [xs[d]] else []
  }

  /** What a read returns: the observed part of the full answer. */
  function Results(items: map<ItemId, Registration>, ids: seq<ItemId>, answers: seq<ReadAnswer>): seq<ReadResult> {
    Selected(Full(items, ids, answers), Observed(items, ids, |answers|))
  }

  /** The ids at the registered positions. */
  function KnownIds(items: map<ItemId, Registration>, ids: seq<ItemId>): (known: seq<ItemId>)
    ensures |known| == |Positions(items, ids)|
  {
    if ids == [] then []
    else
      var front := ids[..|ids| - 1];
      KnownIds(items, front) + if ids[|ids| - 1] in items then [ids[|ids| - 1]] else []
  }

  /** The q-th registered position has rank q, and a registered position stands at its rank. */
  lemma {:induction false} PositionOfRank(items: map<ItemId, Registration>, ids: seq<ItemId>, q: nat)
    requires q < |Positions(items, ids)|
    ensures var j := Positions(items, ids)[q];
            j < |ids| && ids[j] in items && Rank(items, ids, j) == q && KnownIds(items, ids)[q] == ids[j]
    decreases |ids|
  {
    var front := ids[..|ids| - 1];
    if q < |Positions(items, front)| {
      PositionOfRank(items, front, q);
      var j := Positions(items, front)[q];
      assert front[..j] == ids[..j];
    }
  }

  lemma {:induction false} RankOfPosition(items: map<ItemId, Registration>, ids: seq<ItemId>, j: nat)
    requires j < |ids| && ids[j] in items
    ensures Rank(items, ids, j) < |Positions(items, ids)| && Positions(items, ids)[Rank(items, ids, j)] == j
    decreases |ids|
  {
    var front := ids[..|ids| - 1];
    if j < |front| {
      assert front[..j] == ids[..j];
      RankOfPosition(items, front, j);
    }
  }

  lemma {:induction false} SelectedAll<T>(xs: seq<T>, marks: seq<bool>)
    requires |xs| == |marks| && forall i :: 0 <= i < |marks| ==> marks[i]
    ensures Selected(xs, marks) == xs
  {
    if xs != [] {
      var d := |xs| - 1;
      SelectedAll(xs[..d], marks[..d]);
    }
  }

  /** A read without an error answers every position with its own id, in request order; equal
      ids are answered each. */
  lemma CompleteRead(items: map<ItemId, Registration>, ids: seq<ItemId>, answers: seq<ReadAnswer>)
    requires |answers| == |Positions(items, ids)|
    ensures |Results(items, ids, answers)| == |ids|
    ensures forall j :: 0 <= j < |ids| ==> AnsweredAt(items, ids, answers, j, Results(items, ids, answers)[j])
  {
    CompleteIsFull(items, ids, answers);
    forall j | 0 <= j < |ids|
      ensures AnsweredAt(items, ids, answers, j, FullAt(items, ids, answers, j))
    {
      if ids[j] in items {
        RankOfPosition(items, ids, j);
      }
    }
  }

  /** The answer to position j: its own id with the server's answer, or that it is not registered. */
  predicate AnsweredAt(items: map<ItemId, Registration>, ids: seq<ItemId>, answers: seq<ReadAnswer>, j: nat,
                       r: ReadResult)
    requires j < |ids|
  {
    && r.id == ids[j]
    && (ids[j] !in items ==> r.answer == NotRegistered)
    && (ids[j] in items ==> Rank(items, ids, j) < |answers| && r.answer == answers[Rank(items, ids, j)])
  }

  lemma EverythingObserved(items: map<ItemId, Registration>, ids: seq<ItemId>)
    ensures forall j :: 0 <= j < |ids| ==> ObservedAt(items, ids, |Positions(items, ids)|, j)
  {
    forall j | 0 <= j < |ids| && ids[j] in items
      ensures Rank(items, ids, j) < |Positions(items, ids)|
    {
      RankOfPosition(items, ids, j);
    }
  }

  /** A read without an error returns the full answer. */
  lemma CompleteIsFull(items: map<ItemId, Registration>, ids: seq<ItemId>, answers: seq<ReadAnswer>)
    requires |answers| == |Positions(items, ids)|
    ensures Results(items, ids, answers) == Full(items, ids, answers)
  {
    EverythingObserved(items, ids);
    SelectedAll(Full(items, ids, answers), Observed(items, ids, |answers|));
  }

  /** One more answer changes the entry at its own position alone. */
  lemma FullStep(items: map<ItemId, Registration>, ids: seq<ItemId>, answers: seq<ReadAnswer>, a: ReadAnswer)
    requires |answers| < |Positions(items, ids)|
    ensures var j := Positions(items, ids)[|answers|];
            && j < |ids|
            && Full(items, ids, answers + [a]) == Full(items, ids, answers)[j := ReadResult(ids[j], a)]
            && Observed(items, ids, |answers| + 1) == Observed(items, ids, |answers|)[j := true]
  {
    var d := |answers|;
    var j := Positions(items, ids)[d];
    PositionOfRank(items, ids, d);
    forall k | 0 <= k < |ids| && k != j
      ensures FullAt(items, ids, answers + [a], k) == FullAt(items, ids, answers, k)
      ensures ObservedAt(items, ids, d + 1, k) == ObservedAt(items, ids, d, k)
    {
      if ids[k] in items {
        RankOfPosition(items, ids, k);
        assert Rank(items, ids, k) != d;
      }
    }
  }

  /** Every marked element is kept, after the marked elements before it. */
  lemma {:induction false} SelectedIndex<T>(xs: seq<T>, marks: seq<bool>, j: nat)
    requires |xs| == |marks| && j < |xs| && marks[j]
    ensures var k := |Selected(xs[..j], marks[..j])|;
            k < |Selected(xs, marks)| && Selected(xs, marks)[k] == xs[j]
  {
    var d := |xs| - 1;
    if j < d {
      SelectedIndex(xs[..d], marks[..d], j);
      assert xs[..d][..j] == xs[..j] && marks[..d][..j] == marks[..j];
    }
  }

  /** An unregistered id stays in the answer however the read ends. */
  lemma UnregisteredStays(items: map<ItemId, Registration>, ids: seq<ItemId>, answers: seq<ReadAnswer>, j: nat)
    requires j < |ids| && ids[j] !in items
    ensures ReadResult(ids[j], NotRegistered) in Results(items, ids, answers)
  {
    SelectedIndex(Full(items, ids, answers), Observed(items, ids, |answers|), j);
  }

  /** Every kept element comes from a marked position. */
  lemma {:induction false} SelectedFrom<T>(xs: seq<T>, marks: seq<bool>, k: nat) returns (j: nat)
    requires |xs| == |marks| && k < |Selected(xs, marks)|
    ensures j < |xs| && marks[j] && Selected(xs, marks)[k] == xs[j] && k == |Selected(xs[..j], marks[..j])|
  {
    var d := |xs| - 1;
    if k < |Selected(xs[..d], marks[..d])| {
      j := SelectedFrom(xs[..d], marks[..d], k);
      assert xs[..d][..j] == xs[..j] && marks[..d][..j] == marks[..j];
    } else {
      j := d;
    }
  }

  /** Each answer is at an observed position: a registered id is answered only by the server. */
  lemma OnlyObserved(items: map<ItemId, Registration>, ids: seq<ItemId>, answers: seq<ReadAnswer>, k: nat)
    requires k < |Results(items, ids, answers)|
    ensures var r := Results(items, ids, answers)[k];
            r.id in items ==> r.answer in answers
  {
    var j := SelectedFrom(Full(items, ids, answers), Observed(items, ids, |answers|), k);
  }

  /** The answers in one reply. */
  function AnswersOf(read: Reader, states: seq<ReadState>, errors: seq<int32>): seq<ReadAnswer>
    requires |states| == |errors|
  {
    if errors == [] then []
    else
      var d := |errors| - 1;
      AnswersOf(read, states[..d], errors[..d]) + [read(states[d], errors[d])]
  }

  lemma {:induction false} AnswersOfIndex(read: Reader, states: seq<ReadState>, errors: seq<int32>, i: nat)
    requires i < |errors| == |states|
    ensures |AnswersOf(read, states, errors)| == |errors|
    ensures AnswersOf(read, states, errors)[i] == read(states[i], errors[i])
    decreases |errors|
  {
    var d := |errors| - 1;
    if d > 0 {
      AnswersOfIndex(read, states[..d], errors[..d], if i < d then i else 0);
    }
  }

  lemma {:induction false} AnswersIndex(read: Reader, n: nat, reply: nat -> Reply<ReadState>, d: nat, q: nat)
    requires q < d <= Confirmed(n, n, reply, true)
    ensures var r := reply(q / 1000);
            && r.Replied? && r.hresult >= 0 && q % 1000 < |r.states| == |r.errors|
            && ReadAnswers(read, n, reply, d)[q] == read(r.states[q % 1000], r.errors[q % 1000])
  {
    if q < d - 1 {
      AnswersIndex(read, n, reply, d - 1, q);
    } else {
      ConfirmedIsAnswered(n, n, reply, true, q);
    }
  }

  /** A complete reply to chunk c appends its answers to those before. */
  lemma ChunkAnswers(read: Reader, n: nat, reply: nat -> Reply<ReadState>, c: nat)
    requires Start(c) < n && c < Stop(n, n, reply, true, 0)
    requires Batch.Answers(reply(c), End(n, c) - Start(c), true)
    requires End(n, c) <= Confirmed(n, n, reply, true)
    ensures ReadAnswers(read, n, reply, End(n, c)) ==
              ReadAnswers(read, n, reply, Start(c)) + AnswersOf(read, reply(c).states, reply(c).errors)
  {
    var states, errors := reply(c).states, reply(c).errors;
    var all, before := ReadAnswers(read, n, reply, End(n, c)), ReadAnswers(read, n, reply, Start(c));
    var part := AnswersOf(read, states, errors);
    AnswersOfIndex(read, states, errors, 0);
    forall p | 0 <= p < End(n, c)
      ensures all[p] == (before + part)[p]
    {
      AnswersIndex(read, n, reply, End(n, c), p);
      if p < Start(c) {
        AnswersIndex(read, n, reply, Start(c), p);
      } else {
        AnswersOfIndex(read, states, errors, p - Start(c));
        assert p / 1000 == c && p % 1000 == p - Start(c);
      }
    }
  }

  // ---- what an answer says ----

  /** The instant of a FILETIME, 100-nanosecond ticks since 1601-01-01 in two words, as
      milliseconds since 1970-01-01. */
  ghost predicate SourceTime(high: uint32, low: uint32, ms: int) {
    exists t: int ::
      && t / 0x1_0000_0000 == high as int && t % 0x1_0000_0000 == low as int
      && 10000 * (ms + 11644473600000) <= t < 10000 * (ms + 11644473600000) + 10000
  }

  /** The answer to an item whose entry of the reply is s with the given code: the refusal, the
      missing or unreadable value, or the value with its signed quality and its source time. */
  ghost predicate Reports(fl: Floats, s: ReadState, code: int32, a: ReadAnswer) {
    if code < 0 then a == Failed(code)
    else if s.variant.None? then a == NoVariant
    else if ScalarValue(fl, s.variant).Err? then a == BadValue(ScalarValue(fl, s.variant).error)
    else
      && a.Good? && ScalarValue(fl, s.variant) == Ok(a.value)
      && (a.quality as int - s.quality as int) % 0x1_0000 == 0
      && SourceTime(s.timeHigh, s.timeLow, a.sourceMs)
  }

  lemma AnswerReports(fl: Floats, s: ReadState, code: int32)
    ensures Reports(fl, s, code, AnswerOf(fl, s, code))
  {
    var t := s.timeLow as int + s.timeHigh as int * 0x1_0000_0000;
    assert t / 0x1_0000_0000 == s.timeHigh as int && t % 0x1_0000_0000 == s.timeLow as int;
  }

  /** The q-th registered item of a request of n is answered with a, from its own entry of the
      reply that carries it. */
  ghost predicate Delivered(fl: Floats, n: nat, reply: nat -> Reply<ReadState>, q: nat, a: ReadAnswer) {
    var r := reply(q / 1000);
    && q < Confirmed(n, n, reply, true)
    && r.Replied? && r.hresult >= 0 && q % 1000 < |r.states| == |r.errors|
    && Reports(fl, r.states[q % 1000], r.errors[q % 1000], a)
  }

  lemma AnswerIsDelivered(fl: Floats, n: nat, reply: nat -> Reply<ReadState>, q: nat)
    requires q < Confirmed(n, n, reply, true)
    ensures q < |AllAnswers(ReaderFor(fl), n, reply)|
    ensures Delivered(fl, n, reply, q, AllAnswers(ReaderFor(fl), n, reply)[q])
  {
    AnswersIndex(ReaderFor(fl), n, reply, Confirmed(n, n, reply, true), q);
    AnswerReports(fl, reply(q / 1000).states[q % 1000], reply(q / 1000).errors[q % 1000]);
  }

  /** The results of a read.  Each is for an unregistered id, or is what the server delivered for
      its id; every id the server answered has such a result. */
  ghost predicate Rendered(fl: Floats, items: map<ItemId, Registration>, ids: seq<ItemId>,
                           reply: nat -> Reply<ReadState>, results: seq<ReadResult>)
  {
    var known := KnownIds(items, ids);
    && (forall k :: 0 <= k < |results| ==> Explained(fl, items, known, reply, results[k]))
    && (forall q :: 0 <= q < Confirmed(|known|, |known|, reply, true) ==> Returned(fl, known, reply, q, results))
  }

  ghost predicate Explained(fl: Floats, items: map<ItemId, Registration>, known: seq<ItemId>,
                            reply: nat -> Reply<ReadState>, r: ReadResult)
  {
    if r.id !in items then r.answer == NotRegistered
    else exists q :: 0 <= q < |known| && known[q] == r.id && Delivered(fl, |known|, reply, q, r.answer)
  }

  ghost predicate Returned(fl: Floats, known: seq<ItemId>, reply: nat -> Reply<ReadState>, q: nat,
                           results: seq<ReadResult>)
  {
    q < |known| && exists r :: r in results && r.id == known[q] && Delivered(fl, |known|, reply, q, r.answer)
  }

  lemma ResultIsExplained(fl: Floats, items: map<ItemId, Registration>, ids: seq<ItemId>, known: seq<ItemId>,
                          reply: nat -> Reply<ReadState>, answers: seq<ReadAnswer>, k: nat)
    requires known == KnownIds(items, ids) && answers == AllAnswers(ReaderFor(fl), |known|, reply)
    requires k < |Results(items, ids, answers)|
    ensures Explained(fl, items, known, reply, Results(items, ids, answers)[k])
  {
    var j := SelectedFrom(Full(items, ids, answers), Observed(items, ids, |answers|), k);
    if ids[j] in items {
      var q := Rank(items, ids, j);
      RankOfPosition(items, ids, j);
      PositionOfRank(items, ids, q);
      AnswerIsDelivered(fl, |known|, reply, q);
    }
  }

  lemma DeliveredIsReturned(fl: Floats, items: map<ItemId, Registration>, ids: seq<ItemId>, known: seq<ItemId>,
                            reply: nat -> Reply<ReadState>, answers: seq<ReadAnswer>, q: nat)
    requires known == KnownIds(items, ids) && answers == AllAnswers(ReaderFor(fl), |known|, reply)
    requires q < Confirmed(|known|, |known|, reply, true)
    ensures Returned(fl, known, reply, q, Results(items, ids, answers))
  {
    PositionOfRank(items, ids, q);
    var j := Positions(items, ids)[q];
    SelectedIndex(Full(items, ids, answers), Observed(items, ids, |answers|), j);
    AnswerIsDelivered(fl, |known|, reply, q);
    assert ReadResult(ids[j], answers[q]) in Results(items, ids, answers);
  }

  lemma ReadIsRendered(fl: Floats, items: map<ItemId, Registration>, ids: seq<ItemId>,
                       reply: nat -> Reply<ReadState>, answers: seq<ReadAnswer>)
    requires answers == AllAnswers(ReaderFor(fl), |KnownIds(items, ids)|, reply)
    ensures Rendered(fl, items, ids, reply, Results(items, ids, answers))
  {
    var known, results := KnownIds(items, ids), Results(items, ids, answers);
    forall k | 0 <= k < |results|
      ensures Explained(fl, items, known, reply, results[k])
    {
      ResultIsExplained(fl, items, ids, known, reply, answers, k);
    }
    forall q | 0 <= q < Confirmed(|known|, |known|, reply, true)
      ensures Returned(fl, known, reply, q, results)
    {
      DeliveredIsReturned(fl, items, ids, known, reply, answers, q);
    }
  }
}
