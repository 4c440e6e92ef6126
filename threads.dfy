/** The thread server functions (convex/threads.ts): ownership checks, prompt admission
    (`initiateAsyncStreaming`), renaming, deletion, title generation and the latest-thread
    query. The agent library's thread store, message store and the scheduler are modelled
    only through what these functions read from and hand to them. */
module Threads {
  import opened Wrappers
  import opened RateLimiter
  import opened Users

  type ThreadId = string

  /** Thread metadata kept by the agent library: the owner (optional there) and the title
      (unset until one is written). */
  datatype ThreadMeta = ThreadMeta(userId: Option<UserId>, title: Option<string>)

  datatype AuthError =
    | NoUser(cause: UserError)   // `getAuthUserId` threw
    | ThreadNotFound             // the metadata lookup found no such thread
    | Unauthorized               // the thread belongs to someone else

  /** `authorizeThreadAccess`: `caller` is the outcome of `getAuthUserId`. */
  function AuthorizeThreadAccess(caller: Result<UserId, UserError>, threads: map<ThreadId, ThreadMeta>,
                                 threadId: ThreadId): (r: Result<UserId, AuthError>)
    ensures r.Success? <==> caller.Success? && threadId in threads && threads[threadId].userId == Some(caller.value)
    ensures r.Success? ==> r.value == caller.value
    ensures caller.Failure? ==> r == Failure(NoUser(caller.error))
  {
    match caller
    case Failure(e) => Failure(NoUser(e))
    case Success(userId) =>
      if threadId !in threads then Failure(ThreadNotFound)
      else if threads[threadId].userId != Some(userId) then Failure(Unauthorized)
      else Success(userId)
  }

  /** `getLatestThread`: the first entry of the caller's one-item, newest-first page of
      threads, or null when the page is empty. */
  function LatestThread(caller: Result<UserId, UserError>, page: seq<ThreadMeta>): (r: Result<Option<ThreadMeta>, UserError>)
    ensures caller.Failure? ==> r == Failure(caller.error)
    ensures caller.Success? ==> r.Success? && (r.value.None? <==> page == [])
    ensures r.Success? && r.value.Some? ==> r.value.value == page[0]
  {
    match caller
    case Failure(e) => Failure(e)
    case Success(_) => if |page| > 0 then Success(Some(page[0])) else Success(None)
  }

  /** The guard of `generateThreadTitle`: `!(checkTitle && currentTitle)`. */
  predicate ShouldGenerateTitle(checkTitle: bool, currentTitle: Option<string>): (generate: bool)
    // an unchecked run always generates; a checked one only over a missing or empty title
    ensures !checkTitle ==> generate
    ensures checkTitle ==> (generate <==> currentTitle.None? || currentTitle.value == "")
  {
    !(checkTitle && Truthy(currentTitle))
  }

  /** The title after `generateThreadTitle` with a model-produced `generated` title. */
  function TitleAfter(checkTitle: bool, currentTitle: Option<string>, generated: string): (t: Option<string>)
    ensures ShouldGenerateTitle(checkTitle, currentTitle) ==> t == Some(generated)
    ensures !ShouldGenerateTitle(checkTitle, currentTitle) ==> t == currentTitle
    ensures t == currentTitle || t == Some(generated)
  {
    if ShouldGenerateTitle(checkTitle, currentTitle) then Some(generated) else currentTitle
  }

  /** A checked title generation leaves a non-empty title alone, so once a checked run has
      written a non-empty title, another checked run changes nothing. */
  lemma CheckedTitleGenerationSettles(currentTitle: Option<string>, first: string, second: string)
    requires first != ""
    ensures TitleAfter(true, TitleAfter(true, currentTitle, first), second) == TitleAfter(true, currentTitle, first)
    ensures Truthy(currentTitle) ==> TitleAfter(true, currentTitle, first) == currentTitle
  {
  }

  /** An unchecked run always replaces the title. */
  lemma UncheckedTitleGenerationOverwrites(currentTitle: Option<string>, generated: string)
    ensures TitleAfter(false, currentTitle, generated) == Some(generated)
  {
  }

  // ---------------------------------------------------------------------------------
  // initiateAsyncStreaming

  /** The two send gates, which run before the token estimate. */
  function SendGates(user: UserId): (gates: seq<LimiterCall>)
    ensures |gates| == 2
    ensures gates[0].name == SendMessage && gates[0].key == UserKey(user)
    ensures gates[1].name == GlobalSendMessage && gates[1].key == GlobalKey
    // both consume one prompt, without reservation
    ensures gates[0].op == Limit && gates[0].count == 1.0 && !gates[0].reserve
    ensures gates[1].op == Limit && gates[1].count == 1.0 && !gates[1].reserve
  {
    [ LimiterCall(Limit, SendMessage, UserKey(user), 1.0, false),
      LimiterCall(Limit, GlobalSendMessage, GlobalKey, 1.0, false) ]
  }

  /** The two token gates, which run after the token estimate. */
  function TokenGates(user: UserId, estimate: real): (gates: seq<LimiterCall>)
    ensures |gates| == 2
    ensures gates[0].name == TokenUsage && gates[0].key == UserKey(user)
    ensures gates[1].name == GlobalTokenUsage && gates[1].key == GlobalKey
    // both only check the estimate, as a reservation, and consume nothing
    ensures gates[0].op == Check && gates[0].count == estimate && gates[0].reserve
    ensures gates[1].op == Check && gates[1].count == estimate && gates[1].reserve
  {
    [ LimiterCall(Check, TokenUsage, UserKey(user), estimate, true),
      LimiterCall(Check, GlobalTokenUsage, GlobalKey, estimate, true) ]
  }

  /** The limiter calls of the admission sequence, in the order they are made, for `user`
      and a token estimate `estimate`. */
  function AdmissionGates(user: UserId, estimate: real): (gates: seq<LimiterCall>)
    ensures |gates| == 4 && gates[..2] == SendGates(user)
    ensures gates[0].name == SendMessage && gates[1].name == GlobalSendMessage
    ensures gates[2].name == TokenUsage && gates[3].name == GlobalTokenUsage
    // only the prompt limiters are consumed, by one each and without reservation
    ensures forall i :: 0 <= i < 4 ==> (gates[i].op == Limit <==> gates[i].name.CountsPrompts())
    ensures forall i :: 0 <= i < 4 && gates[i].op == Limit ==> gates[i].count == 1.0 && !gates[i].reserve
    // the token limiters are only checked, for the estimate, as a reservation
    ensures forall i :: 0 <= i < 4 && gates[i].op == Check ==> gates[i].count == estimate && gates[i].reserve
    // per-user limiters are keyed on the caller; the others are global
    ensures forall i :: 0 <= i < 4 ==> (gates[i].key == UserKey(user) <==> gates[i].name.IsPerUser())
    ensures forall i :: 0 <= i < 4 ==> (gates[i].key == GlobalKey <==> !gates[i].name.IsPerUser())
  {
    SendGates(user) + TokenGates(user, estimate)
  }

  /** The gates an admission reaches, depending on whether fetching the context messages for
      the estimate throws: only the send gates if it does, all four otherwise. Either way they
      are a prefix of the full sequence. */
  function AttemptedGates(user: UserId, prompt: string, fetched: seq<MessageDoc>, fetchThrows: bool): (gates: seq<LimiterCall>)
    ensures |gates| == if fetchThrows then 2 else 4
    ensures gates == AdmissionGates(user, EstimateTokens(prompt, fetched))[..|gates|]
  {
    if fetchThrows then SendGates(user) else AdmissionGates(user, EstimateTokens(prompt, fetched))
  }

  /** How many gates pass, in order, before the first that throws. */
  function PassedGates(gates: seq<LimiterCall>, allows: LimiterCall -> bool): (k: nat)
    ensures k <= |gates|
    ensures forall i :: 0 <= i < k ==> allows(gates[i])
    ensures k < |gates| ==> !allows(gates[k])
  {
    if gates == [] || !allows(gates[0]) then 0 else 1 + PassedGates(gates[1..], allows)
  }

  /** The calls among `calls` that record a consumption when they pass: the `limit` calls. */
  function Consumptions(calls: seq<LimiterCall>): (r: seq<LimiterCall>)
    ensures forall c :: c in r <==> c in calls && c.op == Limit
    ensures |r| <= |calls|
  {
    if calls == [] then []
    else (if calls[0].op == Limit then [calls[0]] else []) + Consumptions(calls[1..])
  }

  /** Admission consumes only prompt budget, and only from gates that passed. */
  lemma {:induction false} AdmissionNeverConsumesTokens(user: UserId, prompt: string, fetched: seq<MessageDoc>,
                                                        fetchThrows: bool, allows: LimiterCall -> bool)
    ensures var gates := AttemptedGates(user, prompt, fetched, fetchThrows);
            forall c :: c in Consumptions(gates[..PassedGates(gates, allows)]) ==>
              c.op == Limit && c.name.CountsPrompts() && allows(c)
  {
    var all := AdmissionGates(user, EstimateTokens(prompt, fetched));
    var gates := AttemptedGates(user, prompt, fetched, fetchThrows);
    var k := PassedGates(gates, allows);
    forall c | c in Consumptions(gates[..k])
      ensures c.op == Limit && c.name.CountsPrompts() && allows(c)
    {
      var i :| 0 <= i < k && gates[..k][i] == c;
      assert gates[i] == c == all[i];
    }
  }

  /** Consumptions are taken call by call: one more call adds its own consumption, if any. */
  lemma {:induction false} ConsumptionsSnoc(calls: seq<LimiterCall>, c: LimiterCall)
    ensures Consumptions(calls + [c]) == Consumptions(calls) + (if c.op == Limit then [c] else [])
    decreases |calls|
  {
    if calls == [] {
      assert [c][1..] == [];
    } else {
      assert (calls + [c])[1..] == calls[1..] + [c];
      ConsumptionsSnoc(calls[1..], c);
    }
  }

  /** The consumptions of the first `i` admission gates: the send gates passed so far. */
  lemma GatePrefixConsumptions(user: UserId, estimate: real, i: nat)
    requires i <= 4
    ensures var gates := AdmissionGates(user, estimate);
            Consumptions(gates[..i]) == gates[..if i < 2 then i else 2]
  {
    var gates := AdmissionGates(user, estimate);
    assert gates[..0] == [];
    var j := 0;
    while j < i
      invariant j <= i
      invariant Consumptions(gates[..j]) == gates[..if j < 2 then j else 2]
    {
      assert gates[..j + 1] == gates[..j] + [gates[j]];
      ConsumptionsSnoc(gates[..j], gates[j]);
      j := j + 1;
    }
  }

  /** The prompt-budget consumptions of the gates that passed stay recorded, also when a later
      step throws: with k gates passed, the first min(k, 2) gates are consumed. */
  lemma ConsumedSendGates(user: UserId, prompt: string, fetched: seq<MessageDoc>, fetchThrows: bool,
                          allows: LimiterCall -> bool)
    ensures var gates := AttemptedGates(user, prompt, fetched, fetchThrows);
            var k := PassedGates(gates, allows);
            Consumptions(gates[..k]) == gates[..if k < 2 then k else 2]
  {
    var estimate := EstimateTokens(prompt, fetched);
    var all := AdmissionGates(user, estimate);
    var gates := AttemptedGates(user, prompt, fetched, fetchThrows);
    var k := PassedGates(gates, allows);
    assert gates[..k] == all[..k];
    assert gates[..if k < 2 then k else 2] == all[..if k < 2 then k else 2];
    GatePrefixConsumptions(user, estimate, k);
  }

  /** Which of the other steps inside the swallowing `try` throw: fetching the context
      messages for the estimate, saving the prompt, scheduling the stream. */
  datatype StepFaults = StepFaults(fetchThrows: bool, saveThrows: bool, scheduleThrows: bool)

  /** The prompt message saved by an admission; its id is its position in `savedPrompts`. */
  datatype SavedPrompt = SavedPrompt(threadId: ThreadId, prompt: string)

  /** A scheduled run of `streamAsync`. */
  datatype ScheduledStream = ScheduledStream(delayMs: nat, threadId: ThreadId, promptMessageId: nat)

  /** How a server function ended: it returned, or it threw. */
  datatype Outcome = Returned | Threw(error: AuthError)

  /** The state the thread server functions read and write. */
  class ThreadsBackend {
    /** Thread metadata by id. */
    var threads: map<ThreadId, ThreadMeta>
    /** Consumptions recorded by the rate limiter, in order. */
    var consumed: seq<LimiterCall>
    /** Every limiter call made, in order, whether it passed or threw. */
    ghost var limiterCalls: seq<LimiterCall>
    /** Prompt messages saved by admissions; a message id is a position here. */
    var savedPrompts: seq<SavedPrompt>
    /** Background `streamAsync` runs scheduled, in order. */
    var scheduled: seq<ScheduledStream>
    /** Threads handed to the agent library for asynchronous deletion. */
    var deletions: seq<ThreadId>
    /** Thread ids whose metadata was written, in order. */
    ghost var metadataWrites: seq<ThreadId>

    /** Every scheduled run names a saved prompt of its own thread, and nothing ever consumed
        token budget. */
    ghost predicate Valid()
      reads this
    {
      && (forall t :: t in scheduled ==>
            t.promptMessageId < |savedPrompts| && savedPrompts[t.promptMessageId].threadId == t.threadId)
      && (forall c :: c in consumed ==> c.op == Limit && c.name.CountsPrompts())
    }

    constructor (threads: map<ThreadId, ThreadMeta>)
      ensures Valid() && this.threads == threads
      ensures consumed == [] && limiterCalls == [] && savedPrompts == [] && scheduled == [] && deletions == []
      ensures metadataWrites == []
    {
      this.threads := threads;
      consumed, limiterCalls, savedPrompts, scheduled, deletions, metadataWrites := [], [], [], [], [], [];
    }

    /** One limiter call with `throws: true`: the oracle `allows` says whether it passes; a
        `limit` that passes records its consumption. */
    method Gate(call: LimiterCall, allows: LimiterCall -> bool) returns (ok: bool)
      modifies this`limiterCalls, this`consumed
      ensures ok == allows(call)
      ensures limiterCalls == old(limiterCalls) + [call]
      ensures consumed == old(consumed) + (if ok && call.op == Limit then [call] else [])
    {
      limiterCalls := limiterCalls + [call];
      ok := allows(call);
      if ok && call.op == Limit {
        consumed := consumed + [call];
      }
    }

    /** The limiter calls of `initiateAsyncStreaming`, made in order until one throws. The
        token estimate is computed between the send gates and the token gates; when fetching
        its context messages throws, the token gates are not reached. Returns how many gates
        passed. */
    method RunAdmissionGates(userId: UserId, prompt: string, fetched: seq<MessageDoc>, fetchThrows: bool,
                             allows: LimiterCall -> bool) returns (passed: nat)
      modifies this`limiterCalls, this`consumed
      ensures var gates := AttemptedGates(userId, prompt, fetched, fetchThrows);
              && passed == PassedGates(gates, allows)
              && limiterCalls == old(limiterCalls) + gates[..if passed < |gates| then passed + 1 else |gates|]
              && consumed == old(consumed) + Consumptions(gates[..passed])
    {
      ghost var gates := AttemptedGates(userId, prompt, fetched, fetchThrows);
      ConsumedSendGates(userId, prompt, fetched, fetchThrows, allows);
      var ok := Gate(LimiterCall(Limit, SendMessage, UserKey(userId), 1.0, false), allows);
      assert limiterCalls == old(limiterCalls) + gates[..1];
      if !ok {
        return 0;
      }
      assert consumed == old(consumed) + gates[..1];
      ok := Gate(LimiterCall(Limit, GlobalSendMessage, GlobalKey, 1.0, false), allows);
      assert limiterCalls == old(limiterCalls) + gates[..2];
      if !ok {
        return 1;
      }
      assert consumed == old(consumed) + gates[..2];
      if fetchThrows {
        assert gates[1..][1..] == [];
        return 2;
      }
      var count := EstimateTokens(prompt, fetched);
      ok := Gate(LimiterCall(Check, TokenUsage, UserKey(userId), count, true), allows);
      assert limiterCalls == old(limiterCalls) + gates[..3];
      if !ok {
        return 2;
      }
      ok := Gate(LimiterCall(Check, GlobalTokenUsage, GlobalKey, count, true), allows);
      assert limiterCalls == old(limiterCalls) + gates[..4];
      if !ok {
        return 3;
      }
      return 4;
    }

    /** `initiateAsyncStreaming`. `caller` is the outcome of `getAuthUserId`, `fetched` the
        context messages `estimateTokens` fetches, `faults` the other steps of the `try` that
        throw, and `allows` the limiters' verdicts. An authorization failure propagates before
        any limiter call. Any throw inside the `try` ends the admission quietly and keeps what
        earlier steps did: the consumptions of gates already passed, and a saved prompt when
        only the scheduling throws. When nothing throws, one prompt is saved and one
        `streamAsync` run is scheduled for it at once. */
    method InitiateAsyncStreaming(caller: Result<UserId, UserError>, threadId: ThreadId, prompt: string,
                                  fetched: seq<MessageDoc>, faults: StepFaults,
                                  allows: LimiterCall -> bool) returns (out: Outcome)
      requires Valid()
      modifies this`limiterCalls, this`consumed, this`savedPrompts, this`scheduled
      ensures Valid()
      ensures AuthorizeThreadAccess(caller, threads, threadId).Failure? ==>
                && out == Threw(AuthorizeThreadAccess(caller, threads, threadId).error)
                && limiterCalls == old(limiterCalls) && consumed == old(consumed)
                && savedPrompts == old(savedPrompts) && scheduled == old(scheduled)
      ensures AuthorizeThreadAccess(caller, threads, threadId).Success? ==>
                var gates := AttemptedGates(caller.value, prompt, fetched, faults.fetchThrows);
                var k := PassedGates(gates, allows);
                var saved := k == 4 && !faults.saveThrows;
                && out == Returned
                && limiterCalls == old(limiterCalls) + gates[..if k < |gates| then k + 1 else |gates|]
                && consumed == old(consumed) + Consumptions(gates[..k])
                && savedPrompts == old(savedPrompts) + (if saved then [SavedPrompt(threadId, prompt)] else [])
                && scheduled == old(scheduled) + (if saved && !faults.scheduleThrows
                                                  then [ScheduledStream(0, threadId, |old(savedPrompts)|)] else [])
    {
      var auth := AuthorizeThreadAccess(caller, threads, threadId);
      if auth.Failure? {
        return Threw(auth.error);
      }
      var userId := auth.value;
      AdmissionNeverConsumesTokens(userId, prompt, fetched, faults.fetchThrows, allows);
      var passed := RunAdmissionGates(userId, prompt, fetched, faults.fetchThrows, allows);
      if passed == 4 && !faults.saveThrows {
        SaveAndSchedule(threadId, prompt, faults.scheduleThrows);
      }
      return Returned;
    }

    /** The end of an admission that passed every gate: `agent.saveMessage` stores the
        prompt, and `streamAsync` is scheduled for it at once unless scheduling throws. */
    method SaveAndSchedule(threadId: ThreadId, prompt: string, scheduleThrows: bool)
      requires Valid()
      modifies this`savedPrompts, this`scheduled
      ensures Valid()
      ensures savedPrompts == old(savedPrompts) + [SavedPrompt(threadId, prompt)]
      ensures scheduled == old(scheduled) + (if scheduleThrows then [] else [ScheduledStream(0, threadId, |old(savedPrompts)|)])
    {
      var messageId := |savedPrompts|;
      savedPrompts := savedPrompts + [SavedPrompt(threadId, prompt)];
      if !scheduleThrows {
        scheduled := scheduled + [ScheduledStream(0, threadId, messageId)];
      }
    }

    /** `renameThread`: writes the title only once access is authorized. */
    method RenameThread(caller: Result<UserId, UserError>, threadId: ThreadId, title: string) returns (out: Outcome)
      requires Valid()
      modifies this`threads, this`metadataWrites
      ensures Valid()
      ensures AuthorizeThreadAccess(caller, old(threads), threadId).Failure? ==>
                && out == Threw(AuthorizeThreadAccess(caller, old(threads), threadId).error)
                && threads == old(threads) && metadataWrites == old(metadataWrites)
      ensures AuthorizeThreadAccess(caller, old(threads), threadId).Success? ==>
                && out == Returned
                && threads == old(threads)[threadId := old(threads)[threadId].(title := Some(title))]
                && metadataWrites == old(metadataWrites) + [threadId]
    {
      var auth := AuthorizeThreadAccess(caller, threads, threadId);
      if auth.Failure? {
        return Threw(auth.error);
      }
      threads := threads[threadId := threads[threadId].(title := Some(title))];
      metadataWrites := metadataWrites + [threadId];
      return Returned;
    }

    /** `deleteThread`: hands the thread to the agent library for deletion only once access is
        authorized. */
    method DeleteThread(caller: Result<UserId, UserError>, threadId: ThreadId) returns (out: Outcome)
      requires Valid()
      modifies this`deletions
      ensures Valid()
      ensures AuthorizeThreadAccess(caller, threads, threadId).Failure? ==>
                out == Threw(AuthorizeThreadAccess(caller, threads, threadId).error) && deletions == old(deletions)
      ensures AuthorizeThreadAccess(caller, threads, threadId).Success? ==>
                out == Returned && deletions == old(deletions) + [threadId]
    {
      var auth := AuthorizeThreadAccess(caller, threads, threadId);
      if auth.Failure? {
        return Threw(auth.error);
      }
      deletions := deletions + [threadId];
      return Returned;
    }

    /** `generateThreadTitle`: once access is authorized, writes the model's title `generated`
        unless the title is checked and already set. */
    method GenerateThreadTitle(caller: Result<UserId, UserError>, threadId: ThreadId, checkTitle: bool,
                               generated: string) returns (out: Outcome)
      requires Valid()
      modifies this`threads, this`metadataWrites
      ensures Valid()
      ensures AuthorizeThreadAccess(caller, old(threads), threadId).Failure? ==>
                && out == Threw(AuthorizeThreadAccess(caller, old(threads), threadId).error)
                && threads == old(threads) && metadataWrites == old(metadataWrites)
      ensures AuthorizeThreadAccess(caller, old(threads), threadId).Success? ==>
                var meta := old(threads)[threadId];
                && out == Returned
                && threads == old(threads)[threadId := meta.(title := TitleAfter(checkTitle, meta.title, generated))]
                && metadataWrites == old(metadataWrites)
                                     + (if ShouldGenerateTitle(checkTitle, meta.title) then [threadId] else [])
    {
      var auth := AuthorizeThreadAccess(caller, threads, threadId);
      if auth.Failure? {
        return Threw(auth.error);
      }
      var currentTitle := threads[threadId].title;
      if !(checkTitle && Truthy(currentTitle)) {
        threads := threads[threadId := threads[threadId].(title := Some(generated))];
        metadataWrites := metadataWrites + [threadId];
      } else {
        assert threads == threads[threadId := threads[threadId]];
      }
      return Returned;
    }
  }
}
