/** Downloading one batch with retries. */
module DownloadRetry {
  /** The answer to one request for a block stream: refused, or a stream that
      delivers some blocks and then ends or breaks. */
  datatype Answer<B> = Refused | Stream(blocks: seq<B>, broken: bool)

  datatype Download<B> = Blocks(blocks: seq<B>) | Failed

  /** The result, and how many requests were made, from request `call` on with
      the given attempt number. */
  function Outcome<B>(answers: nat -> Answer<B>, call: nat, attempt: nat, maxRetries: nat)
    : (r: (Download<B>, nat))
    ensures r.1 > call
    decreases maxRetries + 1 - attempt
  {
    match answers(call)
    case Refused =>
      if attempt < maxRetries then Outcome(answers, call + 1, attempt + 2, maxRetries)
      else (Failed, call + 1)
    case Stream(blocks, broken) =>
      if broken && attempt >= maxRetries then (Failed, call + 1)
      else if blocks != [] || attempt >= maxRetries then (Blocks(blocks), call + 1)
      else Outcome(answers, call + 1, attempt + 1, maxRetries)
  }

  /** `download_blocks_with_retry`. The refused arm counts the attempt twice. */
  method DownloadBlocksWithRetry<B>(
    start: nat, endExclusive: nat, answers: nat -> Answer<B>, maxRetries: nat
  ) returns (r: Download<B>, calls: nat)
    ensures (r, calls) == if endExclusive <= start then (Blocks([]), 0)
                          else Outcome(answers, 0, 0, maxRetries)
  {
    if endExclusive <= start {
      return Blocks([]), 0;
    }
    var attempt := 0;
    calls := 0;
    while true
      invariant Outcome(answers, 0, 0, maxRetries) == Outcome(answers, calls, attempt, maxRetries)
      decreases maxRetries + 1 - attempt
    {
      var answer := answers(calls);
      calls := calls + 1;
      match answer {
        case Stream(blocks, broken) =>
          if broken && !(attempt < maxRetries) {
            return Failed, calls;
          }
          if blocks != [] || attempt >= maxRetries {
            return Blocks(blocks), calls;
          }
        case Refused =>
          if !(attempt < maxRetries) {
            return Failed, calls;
          }
          attempt := attempt + 1;
      }
      attempt := attempt + 1;
    }
  }

  /** Never more requests than retries plus one. */
  lemma {:induction false} RequestsBounded<B>(
    answers: nat -> Answer<B>, call: nat, attempt: nat, maxRetries: nat)
    ensures Outcome(answers, call, attempt, maxRetries).1
         <= call + 1 + if attempt <= maxRetries then maxRetries - attempt else 0
    decreases maxRetries + 1 - attempt
  {
    match answers(call)
    case Refused =>
      if attempt < maxRetries {
        RequestsBounded(answers, call + 1, attempt + 2, maxRetries);
      }
    case Stream(blocks, broken) =>
      if blocks == [] && attempt < maxRetries {
        RequestsBounded(answers, call + 1, attempt + 1, maxRetries);
      }
  }

  /** A server that always refuses is asked only about half as often: the
      attempt counter moves by two. */
  lemma {:induction false} RefusalsCountTwice<B>(
    answers: nat -> Answer<B>, call: nat, attempt: nat, maxRetries: nat)
    requires forall i :: answers(i).Refused?
    requires attempt <= maxRetries + 1
    ensures Outcome(answers, call, attempt, maxRetries)
         == (Failed, call + 1 + (maxRetries + 1 - attempt) / 2)
    decreases maxRetries + 1 - attempt
  {
    if attempt < maxRetries {
      RefusalsCountTwice(answers, call + 1, attempt + 2, maxRetries);
    }
  }

  /** The answer that uses up one attempt and no more: a stream without blocks. */
  predicate IsEmptyStream<B>(answer: Answer<B>) {
    answer.Stream? && answer.blocks == []
  }

  /** The answers before the last request that let a call make all its requests:
      streams without blocks, except that the one just before it may be a refusal. */
  ghost predicate UsesEveryRetry<B>(answers: nat -> Answer<B>, call: nat, retries: nat) {
    retries > 0 ==>
      && (forall i: nat | call <= i < call + retries - 1 :: IsEmptyStream(answers(i)))
      && (answers(call + retries - 1).Refused? || IsEmptyStream(answers(call + retries - 1)))
  }

  /** The limit of retries plus one request is met exactly on such answers: any
      earlier refusal loses a retry, any earlier block ends the call. */
  lemma {:induction false} LimitMetExactlyWhen<B>(
    answers: nat -> Answer<B>, call: nat, attempt: nat, maxRetries: nat)
    requires attempt <= maxRetries
    ensures Outcome(answers, call, attempt, maxRetries).1 == call + 1 + (maxRetries - attempt)
       <==> UsesEveryRetry(answers, call, maxRetries - attempt)
    decreases maxRetries - attempt
  {
    var retries := maxRetries - attempt;
    if retries > 0 {
      if answers(call).Refused? {
        RequestsBounded(answers, call + 1, attempt + 2, maxRetries);
        assert retries > 1 ==> !IsEmptyStream(answers(call));
      } else if answers(call).blocks == [] {
        LimitMetExactlyWhen(answers, call + 1, attempt + 1, maxRetries);
        assert UsesEveryRetry(answers, call, retries)
          <==> UsesEveryRetry(answers, call + 1, retries - 1);
      }
    }
  }

  /** The refusals among the answers from `call` up to `last`. */
  function Refusals<B>(answers: nat -> Answer<B>, call: nat, last: nat): nat
    requires call <= last
    decreases last - call
  {
    if call == last then 0
    else Refusals(answers, call + 1, last) + if answers(call).Refused? then 1 else 0
  }

  /** The attempt number of request `last`: every answer before it moved the counter
      by one, and every refusal by one more. */
  function AttemptAt<B>(answers: nat -> Answer<B>, call: nat, attempt: nat, last: nat): nat
    requires call <= last
  {
    attempt + (last - call) + Refusals(answers, call, last)
  }

  /** How a call ends. Every answer before the last was a refusal or a stream without
      blocks, with a retry left. What is accepted is exactly what the last request
      streamed: blocks, even from a stream that broke if a retry was left, or nothing
      from a whole stream if none was. It fails if none was left and the last request
      was refused or its stream broke. */
  ghost predicate EndsAt<B>(
    answers: nat -> Answer<B>, call: nat, attempt: nat, maxRetries: nat, last: nat, r: Download<B>)
  {
    && call <= last
    && (forall i: nat | call <= i < last ::
          && (answers(i).Refused? || IsEmptyStream(answers(i)))
          && AttemptAt(answers, call, attempt, i) < maxRetries)
    && var left := AttemptAt(answers, call, attempt, last) < maxRetries;
       match r
       case Blocks(blocks) =>
         && answers(last).Stream? && answers(last).blocks == blocks
         && (answers(last).broken ==> left) && (blocks == [] ==> !left)
       case Failed => !left && (answers(last).Refused? || answers(last).broken)
  }

  lemma EndsLater<B>(
    answers: nat -> Answer<B>, call: nat, attempt: nat, maxRetries: nat, last: nat, r: Download<B>)
    requires attempt < maxRetries && (answers(call).Refused? || IsEmptyStream(answers(call)))
    requires EndsAt(answers, call + 1, attempt + (if answers(call).Refused? then 2 else 1),
                    maxRetries, last, r)
    ensures EndsAt(answers, call, attempt, maxRetries, last, r)
  {
    var next := attempt + if answers(call).Refused? then 2 else 1;
    assert AttemptAt(answers, call, attempt, call) == attempt;
    forall i: nat | call < i <= last
      ensures AttemptAt(answers, call, attempt, i) == AttemptAt(answers, call + 1, next, i)
    {
    }
  }

  lemma {:induction false} OutcomeExactly<B>(
    answers: nat -> Answer<B>, call: nat, attempt: nat, maxRetries: nat)
    ensures var (r, calls) := Outcome(answers, call, attempt, maxRetries);
            calls > call && EndsAt(answers, call, attempt, maxRetries, calls - 1, r)
    decreases maxRetries + 1 - attempt
  {
    var (r, calls) := Outcome(answers, call, attempt, maxRetries);
    assert AttemptAt(answers, call, attempt, call) == attempt;
    if attempt < maxRetries && (answers(call).Refused? || IsEmptyStream(answers(call))) {
      var next := attempt + if answers(call).Refused? then 2 else 1;
      OutcomeExactly(answers, call + 1, next, maxRetries);
      EndsLater(answers, call, attempt, maxRetries, calls - 1, r);
    }
  }

  /** There is only one such ending. */
  lemma EndingIsUnique<B>(
    answers: nat -> Answer<B>, call: nat, attempt: nat, maxRetries: nat,
    last: nat, r: Download<B>, last': nat, r': Download<B>)
    requires EndsAt(answers, call, attempt, maxRetries, last, r)
    requires EndsAt(answers, call, attempt, maxRetries, last', r')
    ensures last == last' && r == r'
  {
  }
}
