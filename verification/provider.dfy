/** The question-fetching loop. The generation service is an oracle: the
    sequence `outcomes` lists what it answers to the first, second, ... call.
    Each answer is an error (transport, provider or parse failure), an empty
    or absent response text, or a parsed batch of question items. */
module Provider {
  import opened Types

  const BatchSize := 10

  datatype Outcome = Error | Empty | Batch(items: seq<Question>)

  datatype FailReason = ProviderFailure | InsufficientQuestions

  /** What a fetch yields, together with how many provider calls it made. */
  datatype FetchResult =
    | Fetched(questions: seq<Question>, calls: nat)
    | Failed(calls: nat, reason: FailReason)

  /** The number of batches the loop allows itself: the ceiling of
      count / BatchSize, and no iteration at all for a count that is not positive. */
  function NumBatches(count: int): (n: nat)
    ensures count <= n * BatchSize
    ensures 0 < n ==> (n - 1) * BatchSize < count
  {
    if count <= 0 then 0 else (count + BatchSize - 1) / BatchSize
  }

  /** The questions one answer contributes: an empty or absent text adds nothing. */
  function Delivered(o: Outcome): seq<Question> {
    if o.Batch? then o.items else []
  }

  /** The in-order concatenation of everything the first `n` calls delivered. */
  function Gathered(outcomes: seq<Outcome>, n: nat): seq<Question>
    requires n <= |outcomes|
  {
    if n == 0 then [] else Gathered(outcomes, n - 1) + Delivered(outcomes[n - 1])
  }

  predicate NoErrorBefore(outcomes: seq<Outcome>, n: nat)
    requires n <= |outcomes|
  {
    forall j :: 0 <= j < n ==> !outcomes[j].Error?
  }

  /** After each of the calls 1 .. n-1 the accumulated list was still too short. */
  predicate ShortBefore(count: int, outcomes: seq<Outcome>, n: nat)
    requires n <= |outcomes|
  {
    forall j :: 0 < j < n ==> |Gathered(outcomes, j)| < count
  }

  /** `s.slice(0, end)` of JavaScript: a negative end counts from the back. */
  function SliceTo<T>(s: seq<T>, end: int): (r: seq<T>)
    ensures |r| <= |s| && r == s[..|r|]
    ensures 0 <= end ==> |r| == if end < |s| then end else |s|
  {
    var e := if end < 0 then (if |s| + end < 0 then 0 else |s| + end)
             else if end < |s| then end else |s|;
    s[..e]
  }

  /** Everything the loop promises about its result, given the oracle and the
      batch limit `nb`: at most `nb` calls; no stop before the last call made;
      a failure is caused by the last call and by no earlier one; a success
      saw no error, stopped early only because enough had accumulated, and
      returns the accumulated list cut to `count`. */
  ghost predicate Conforms(count: int, outcomes: seq<Outcome>, nb: nat, r: FetchResult)
    requires nb <= |outcomes|
  {
    && r.calls <= nb
    && ShortBefore(count, outcomes, r.calls)
    && match r
       case Failed(calls, reason) =>
         && reason == ProviderFailure
         && 0 < calls
         && outcomes[calls - 1].Error?
         && NoErrorBefore(outcomes, calls - 1)
       case Fetched(questions, calls) =>
         && NoErrorBefore(outcomes, calls)
         && (calls < nb ==> count <= |Gathered(outcomes, calls)|)
         && questions == SliceTo(Gathered(outcomes, calls), count)
  }

  /** The loop from iteration `i` on, with `acc` the list accumulated so far. */
  function Drive(count: int, outcomes: seq<Outcome>, nb: nat, i: nat, acc: seq<Question>): (r: FetchResult)
    requires i <= nb <= |outcomes|
    requires acc == Gathered(outcomes, i)
    requires NoErrorBefore(outcomes, i)
    requires forall j :: 0 < j <= i ==> |Gathered(outcomes, j)| < count
    ensures i <= r.calls
    ensures Conforms(count, outcomes, nb, r)
    decreases nb - i
  {
    if i == nb then Fetched(SliceTo(acc, count), i)
    else if outcomes[i].Error? then Failed(i + 1, ProviderFailure)
    else
      var acc' := acc + Delivered(outcomes[i]);
      if count <= |acc'| then Fetched(SliceTo(acc', count), i + 1)
      else Drive(count, outcomes, nb, i + 1, acc')
  }

  /** `fetchQuestions(topic, count)` against the oracle, exactly as written:
      nothing checks that enough questions arrived. */
  function Fetch(count: int, outcomes: seq<Outcome>): (r: FetchResult)
    requires NumBatches(count) <= |outcomes|
    ensures Conforms(count, outcomes, NumBatches(count), r)
    ensures r.Fetched? ==> |r.questions| <= if count < 0 then 0 else count
  {
    Drive(count, outcomes, NumBatches(count), 0, [])
  }

  /** The fetch with the missing length check added: a short result becomes
      an insufficient-questions failure instead of a short list. */
  function FetchChecked(count: int, outcomes: seq<Outcome>): (r: FetchResult)
    requires NumBatches(count) <= |outcomes|
    ensures r.Fetched? ==> |r.questions| == if count < 0 then 0 else count
    ensures r.Fetched? ==> r == Fetch(count, outcomes)
    ensures r.Failed? ==> Fetch(count, outcomes).Failed? || r.reason == InsufficientQuestions
    ensures Fetch(count, outcomes).Failed? ==> r == Fetch(count, outcomes)
    ensures (Fetch(count, outcomes).Fetched? && count <= |Fetch(count, outcomes).questions|)
            ==> r == Fetch(count, outcomes)
  {
    var f := Fetch(count, outcomes);
    if f.Fetched? && |f.questions| < count then Failed(f.calls, InsufficientQuestions) else f
  }

  /** The characterisation leaves no freedom: two results that both conform
      to it are the same result. */
  lemma ConformsIsUnique(count: int, outcomes: seq<Outcome>, r1: FetchResult, r2: FetchResult)
    requires NumBatches(count) <= |outcomes|
    requires Conforms(count, outcomes, NumBatches(count), r1)
    requires Conforms(count, outcomes, NumBatches(count), r2)
    ensures r1 == r2
  {
  }

  lemma {:induction false} GatheredFullBatches(outcomes: seq<Outcome>, n: nat)
    requires n <= |outcomes|
    requires forall j :: 0 <= j < n ==> outcomes[j].Batch? && |outcomes[j].items| == BatchSize
    ensures |Gathered(outcomes, n)| == n * BatchSize
  {
    if n > 0 {
      GatheredFullBatches(outcomes, n - 1);
    }
  }

  /** When every call returns a full batch, exactly NumBatches(count) calls
      are made and exactly `count` questions come back. */
  lemma FullBatchesFetchExactly(count: int, outcomes: seq<Outcome>)
    requires 0 < count
    requires NumBatches(count) <= |outcomes|
    requires forall j :: 0 <= j < NumBatches(count) ==> outcomes[j].Batch? && |outcomes[j].items| == BatchSize
    ensures Fetch(count, outcomes).Fetched?
    ensures Fetch(count, outcomes).calls == NumBatches(count)
    ensures |Fetch(count, outcomes).questions| == count
  {
    var nb := NumBatches(count);
    var r := Fetch(count, outcomes);
    GatheredFullBatches(outcomes, r.calls);
    GatheredFullBatches(outcomes, nb);
  }

  /** Twenty-five questions in full batches: three calls, 30 items cut to 25. */
  lemma TwentyFiveTakesThreeCalls(outcomes: seq<Outcome>)
    requires 3 <= |outcomes|
    requires forall j :: 0 <= j < 3 ==> outcomes[j].Batch? && |outcomes[j].items| == BatchSize
    ensures Fetch(25, outcomes).Fetched?
    ensures Fetch(25, outcomes).calls == 3
    ensures |Fetch(25, outcomes).questions| == 25
  {
    assert NumBatches(25) == 3;
    FullBatchesFetchExactly(25, outcomes);
  }

  lemma {:induction false} GatheredNothing(outcomes: seq<Outcome>, n: nat)
    requires n <= |outcomes|
    requires forall j :: 0 <= j < n ==> outcomes[j] == Empty
    ensures Gathered(outcomes, n) == []
  {
    if n > 0 {
      GatheredNothing(outcomes, n - 1);
    }
  }

  /** A provider that keeps answering with empty text neither fails the fetch
      nor keeps it looping: after NumBatches(count) calls it returns nothing. */
  lemma EmptyAnswersFetchNothing(count: int, outcomes: seq<Outcome>)
    requires 0 < count
    requires NumBatches(count) <= |outcomes|
    requires forall j :: 0 <= j < NumBatches(count) ==> outcomes[j] == Empty
    ensures Fetch(count, outcomes) == Fetched([], NumBatches(count))
  {
    var r := Fetch(count, outcomes);
    GatheredNothing(outcomes, r.calls);
  }

  /** A failure on the second of three batches aborts the fetch: no questions
      are returned, and the third call is never made. */
  lemma SecondBatchErrorAborts(outcomes: seq<Outcome>)
    requires 3 <= |outcomes|
    requires outcomes[0].Batch? && |outcomes[0].items| < 25
    requires outcomes[1] == Error
    ensures Fetch(25, outcomes) == Failed(2, ProviderFailure)
  {
    assert NumBatches(25) == 3;
    var r := Fetch(25, outcomes);
    assert Gathered(outcomes, 1) == outcomes[0].items;
  }

  /** Returned items are not checked against the requested shape: a batch
      holding a question with no options and an answer index of 7 is
      passed through as it is. */
  lemma FetchDoesNotValidate()
    ensures var bad := Question("", [], 7, "", "");
            && !ValidQuestion(bad)
            && Fetch(1, [Batch([bad])]) == Fetched([bad], 1)
  {
    var bad := Question("", [], 7, "", "");
    assert Gathered([Batch([bad])], 1) == [bad];
  }
}
