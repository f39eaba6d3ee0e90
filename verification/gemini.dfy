/**
 * The `callGemini` request client: one logical "generate text" call made of at
 * most three HTTP attempts, with a backoff wait of 1000 ms that doubles after
 * each failed attempt except the last. The network is not modelled: what each
 * attempt would observe is given as a sequence of `Attempt`s, and the waits
 * are recorded instead of slept.
 */
module Gemini {
  import opened Wrappers

  /** One text part of a request or response. */
  datatype Part = Part(text: string)

  /** A `{ parts: [...] }` object. */
  datatype Content = Content(parts: seq<Part>)

  /**
   * The JSON request body. `systemInstruction` is None when the field is
   * `undefined`, which `JSON.stringify` leaves out of the body altogether.
   */
  datatype Payload = Payload(contents: seq<Content>, systemInstruction: Option<Content>)

  /**
   * What one attempt observes. `Fail` is anything that lands in the `catch`:
   * a rejected `fetch`, a response whose status is not ok, a body that is not
   * JSON, or a body that is JSON `null` (reading `candidates` from it throws).
   * `Ok(text)` is an ok response whose body parsed to a value `candidates` can
   * be read from, carrying `candidates?.[0]?.content?.parts?.[0]?.text` (None
   * when any link of that chain is missing).
   */
  datatype Attempt = Fail | Ok(text: Option<string>)

  /**
   * The outcome of one call: the body posted on every attempt, the text
   * returned to the caller, how many attempts were made and the backoff waits
   * (in milliseconds) slept between them, in order.
   */
  datatype Reply = Reply(request: Payload, text: string, attempts: nat, delays: seq<nat>)

  const MaxRetries: nat := 3

  /** Enough attempt outcomes for a full call. */
  type Outcomes = a: seq<Attempt> | |a| >= MaxRetries witness [Fail, Fail, Fail]
  const InitialDelay: nat := 1000
  const NoResponseText: string := "I'm sorry, I couldn't generate a response."
  const TroubleText: string := "I'm having trouble connecting to the AI network right now. Please try again."

  /** The body `callGemini` builds once and posts on every attempt. */
  function BuildPayload(prompt: string, systemInstruction: string): (p: Payload)
    ensures |p.contents| == 1 && |p.contents[0].parts| == 1
    ensures p.systemInstruction.None? <==> systemInstruction == ""
    ensures p.systemInstruction.Some? ==> |p.systemInstruction.value.parts| == 1
  {
    Payload([Content([Part(prompt)])],
            if systemInstruction != "" then Some(Content([Part(systemInstruction)])) else None)
  }

  /** The prompt a request body carries: the text of its only content part. */
  function PromptOf(p: Payload): string {
    if |p.contents| == 1 && |p.contents[0].parts| == 1 then p.contents[0].parts[0].text else ""
  }

  /** The instruction a request body carries; an omitted field reads as the empty string. */
  function InstructionOf(p: Payload): string {
    match p.systemInstruction
    case None => ""
    case Some(c) => if |c.parts| == 1 then c.parts[0].text else ""
  }

  /** The body loses nothing: prompt and instruction are both recoverable from it. */
  lemma PayloadRoundTrip(prompt: string, systemInstruction: string)
    ensures PromptOf(BuildPayload(prompt, systemInstruction)) == prompt
    ensures InstructionOf(BuildPayload(prompt, systemInstruction)) == systemInstruction
  {
  }

  /** Distinct (prompt, instruction) pairs give distinct bodies. */
  lemma PayloadInjective(p1: string, s1: string, p2: string, s2: string)
    ensures BuildPayload(p1, s1) == BuildPayload(p2, s2) <==> p1 == p2 && s1 == s2
  {
    PayloadRoundTrip(p1, s1);
    PayloadRoundTrip(p2, s2);
  }

  /**
   * The value of `text || "I'm sorry, ..."`: a present, non-empty text is
   * passed through unchanged; a missing or empty one becomes the apology.
   */
  function TextOrApology(text: Option<string>): (r: string)
    ensures r != ""
    ensures text.Some? && text.value != "" ==> r == text.value
    ensures text.None? || text.value == "" ==> r == NoResponseText
  {
    if text.Some? && text.value != "" then text.value else NoResponseText
  }

  /** 2 to the power `k`. */
  function Pow2(k: nat): nat {
    if k == 0 then 1 else 2 * Pow2(k - 1)
  }

  /** The first `n` backoff waits: 1000, 2000, 4000, ... */
  function Backoff(n: nat): (ds: seq<nat>)
    ensures |ds| == n
    ensures forall k :: 0 <= k < n ==> ds[k] == InitialDelay * Pow2(k)
  {
    if n == 0 then [] else Backoff(n - 1) + [InitialDelay * Pow2(n - 1)]
  }

  /**
   * The characterisation of a call as the caller sees it: attempts before the
   * last one all failed; the last one is the first success, or the third
   * failure; an ok response's text (or the apology) is returned, three
   * failures give the trouble text; and one wait separates consecutive
   * attempts.
   */
  ghost predicate Characterises(attempts: Outcomes, r: Reply)
  {
    && 1 <= r.attempts <= MaxRetries
    && (forall k :: 0 <= k < r.attempts - 1 ==> attempts[k].Fail?)
    && (attempts[r.attempts - 1].Ok? ==> r.text == TextOrApology(attempts[r.attempts - 1].text))
    && (attempts[r.attempts - 1].Fail? ==> r.attempts == MaxRetries && r.text == TroubleText)
    && r.delays == Backoff(r.attempts - 1)
  }

  /**
   * One turn of the `for` loop at index `i`, with `delay` the wait the next
   * failure would sleep and `waited` the waits slept so far.
   */
  function RetryFrom(request: Payload, attempts: Outcomes, i: nat, delay: nat, waited: seq<nat>): (r: Reply)
    requires i < MaxRetries
    requires waited == Backoff(i) && delay == InitialDelay * Pow2(i)
    requires forall k :: 0 <= k < i ==> attempts[k].Fail?
    ensures r.request == request
    ensures Characterises(attempts, r)
    decreases MaxRetries - i
  {
    match attempts[i]
    case Ok(text) => Reply(request, TextOrApology(text), i + 1, waited)
    case Fail =>
      if i == MaxRetries - 1 then Reply(request, TroubleText, i + 1, waited)
      else RetryFrom(request, attempts, i + 1, delay * 2, waited + [delay])
  }

  /**
   * `callGemini(prompt, systemInstruction)` against a network whose attempts
   * observe `attempts` in turn (only the first three are ever consulted). It
   * never fails: the caller always receives non-empty text.
   */
  function CallGemini(prompt: string, systemInstruction: string, attempts: Outcomes): (r: Reply)
    ensures r.request == BuildPayload(prompt, systemInstruction)
    ensures Characterises(attempts, r)
    ensures r.text != ""
  {
    RetryFrom(BuildPayload(prompt, systemInstruction), attempts, 0, InitialDelay, [])
  }

  /**
   * The same call written as the source's loop: `delay` starts at 1000 and is
   * doubled after each wait, and the final failing iteration returns instead
   * of waiting. It agrees with the functional model on every input.
   */
  method CallGeminiLoop(prompt: string, systemInstruction: string, attempts: Outcomes) returns (r: Reply)
    ensures r == CallGemini(prompt, systemInstruction, attempts)
  {
    var request := BuildPayload(prompt, systemInstruction);
    var delay := InitialDelay;
    var waited: seq<nat> := [];
    var i := 0;
    while i < MaxRetries
      invariant 0 <= i < MaxRetries
      invariant waited == Backoff(i) && delay == InitialDelay * Pow2(i)
      invariant forall k :: 0 <= k < i ==> attempts[k].Fail?
      invariant RetryFrom(request, attempts, i, delay, waited) == CallGemini(prompt, systemInstruction, attempts)
      decreases MaxRetries - i
    {
      if attempts[i].Ok? {
        return Reply(request, TextOrApology(attempts[i].text), i + 1, waited);
      }
      if i == MaxRetries - 1 {
        return Reply(request, TroubleText, i + 1, waited);
      }
      waited := waited + [delay];
      delay := delay * 2;
      i := i + 1;
    }
  }

  /** An attempt that succeeds first time with text: one attempt, no wait, the text unchanged. */
  lemma FirstAttemptSucceeds(prompt: string, systemInstruction: string, attempts: Outcomes, text: string)
    requires attempts[0] == Ok(Some(text)) && text != ""
    ensures CallGemini(prompt, systemInstruction, attempts).text == text
    ensures CallGemini(prompt, systemInstruction, attempts).attempts == 1
    ensures CallGemini(prompt, systemInstruction, attempts).delays == []
  {
  }

  /** An ok response without text is not retried: the apology comes back after that one attempt. */
  lemma EmptyAnswerNotRetried(prompt: string, systemInstruction: string, attempts: Outcomes, k: nat)
    requires k < MaxRetries
    requires forall j :: 0 <= j < k ==> attempts[j].Fail?
    requires attempts[k] == Ok(None) || attempts[k] == Ok(Some(""))
    ensures CallGemini(prompt, systemInstruction, attempts).text == NoResponseText
    ensures CallGemini(prompt, systemInstruction, attempts).attempts == k + 1
  {
  }

  /** Three failures: three attempts, waits of exactly 1000 and 2000 ms, and the trouble text. */
  lemma AllAttemptsFail(prompt: string, systemInstruction: string, attempts: Outcomes)
    requires attempts[0] == Fail && attempts[1] == Fail && attempts[2] == Fail
    ensures CallGemini(prompt, systemInstruction, attempts).text == TroubleText
    ensures CallGemini(prompt, systemInstruction, attempts).attempts == 3
    ensures CallGemini(prompt, systemInstruction, attempts).delays == [1000, 2000]
  {
    assert Backoff(2) == [1000, 2000];
  }

  /** Two failures and then text: three attempts, waits of 1000 and 2000 ms, the text returned. */
  lemma ThirdAttemptSucceeds(prompt: string, systemInstruction: string, attempts: Outcomes, text: string)
    requires attempts[0] == Fail && attempts[1] == Fail && attempts[2] == Ok(Some(text)) && text != ""
    ensures CallGemini(prompt, systemInstruction, attempts).text == text
    ensures CallGemini(prompt, systemInstruction, attempts).attempts == 3
    ensures CallGemini(prompt, systemInstruction, attempts).delays == [1000, 2000]
  {
    assert Backoff(2) == [1000, 2000];
  }

  /**
   * What the caller can receive: the text of the ok attempt that ended the
   * call, the apology, or the trouble text; never anything else.
   */
  lemma ReplyTextOrigin(prompt: string, systemInstruction: string, attempts: Outcomes)
    ensures var r := CallGemini(prompt, systemInstruction, attempts);
            || r.text == NoResponseText
            || r.text == TroubleText
            || (exists k :: 0 <= k < MaxRetries && attempts[k] == Ok(Some(r.text)))
  {
    var r := CallGemini(prompt, systemInstruction, attempts);
    var k := r.attempts - 1;
    if attempts[k].Ok? && r.text != NoResponseText {
      assert attempts[k] == Ok(Some(r.text));
    }
  }

  /** The number of attempts never exceeds three, and a call that waits at all waits at most 3000 ms in total. */
  lemma AttemptBudget(prompt: string, systemInstruction: string, attempts: Outcomes)
    ensures CallGemini(prompt, systemInstruction, attempts).attempts <= 3
    ensures |CallGemini(prompt, systemInstruction, attempts).delays| <= 2
    ensures Sum(CallGemini(prompt, systemInstruction, attempts).delays) <= 3000
  {
    var r := CallGemini(prompt, systemInstruction, attempts);
    if r.attempts == 1 {
      assert r.delays == Backoff(0) == [];
    } else if r.attempts == 2 {
      assert r.delays == Backoff(1) == [1000];
      assert Sum([1000]) == 1000;
    } else {
      assert r.delays == Backoff(2) == [1000, 2000];
      assert [1000, 2000][1..] == [2000];
      assert Sum([2000]) == 2000 && Sum([1000, 2000]) == 3000;
    }
  }

  /** The sum of a sequence of waits. */
  function Sum(ds: seq<nat>): nat {
    if ds == [] then 0 else ds[0] + Sum(ds[1..])
  }
}
