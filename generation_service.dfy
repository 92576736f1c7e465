/**
 * CardGenerationService.kt: the background worker that turns queued images
 * into cards. Tasks wait in a FIFO queue; one runs at a time, guarded by the
 * `isRunning` flag. A task is answered from the card cache when it can be;
 * otherwise the image is decoded and the model is asked, and the answer is
 * cached. Every task ends with exactly one completion broadcast.
 *
 * The executor's job is modelled as one atomic step, `RunHead`, that the
 * environment takes whenever a task has been started. The image decoding, the
 * stored API key and the model's answer for that task are its parameters.
 */
module GenerationWorker {
  import opened Wrappers
  import opened Vlm
  import CardCache

  const ActionProcessImage: string := "com.cardgen.app.action.PROCESS_IMAGE"

  datatype Task = Task(uri: string, md5: string, requestId: string)

  /** The extras of a start intent; `None` for an absent extra (or an absent intent's action). */
  datatype Intent = Intent(action: Option<string>, uri: Option<string>, md5: Option<string>, requestId: Option<string>)

  /** What the model call yields: a card, or an exception with its (nullable) message. */
  datatype Reply = Generated(card: CardData) | Failed(message: Option<string>)

  /** What the outside world does during one task. */
  datatype Env = Env(imageDecodes: bool, apiKey: string, reply: Reply, cacheFileWritable: bool)

  /** The payload of an ACTION_CARD_COMPLETE broadcast: the card (sent as JSON) or the error message. */
  datatype Outcome = CardJson(card: CardData) | Error(message: Option<string>)

  datatype Completion = Completion(requestId: string, md5: string, outcome: Outcome)

  /** The effect of one task: the cache after it, its broadcast, and which oracles it used. */
  datatype TaskRun = TaskRun(cache: map<string, CardData>, completion: Completion, loadedImage: bool, calledModel: bool)

  /** `onStartCommand`: the generation job an intent asks for, if it asks for one. */
  function TaskOf(intent: Intent): (t: Option<Task>)
    ensures t.Some? <==> intent.action == Some(ActionProcessImage) && intent.uri.Some? && intent.md5.Some?
    ensures t.Some? ==> t.value.uri == intent.uri.value && t.value.md5 == intent.md5.value
    ensures t.Some? && intent.requestId.None? ==> t.value.requestId == "0"
    ensures t.Some? && intent.requestId.Some? ==> t.value.requestId == intent.requestId.value
  {
    if intent.action == Some(ActionProcessImage) && intent.uri.Some? && intent.md5.Some? then
      Some(Task(intent.uri.value, intent.md5.value, intent.requestId.GetOr("0")))
    else None
  }

  /** The body of the executor job in `processNext`, over the cache as it is when the job runs. */
  function RunTask(task: Task, cache: map<string, CardData>, env: Env): (r: TaskRun)
    ensures r.completion.md5 == task.md5 && r.completion.requestId == task.requestId
    ensures r.cache.Keys == cache.Keys || r.cache.Keys == cache.Keys + {task.md5}
    ensures forall k :: k in cache && k != task.md5 ==> r.cache[k] == cache[k]
    ensures r.completion.outcome.CardJson? ==> task.md5 in r.cache && r.cache[task.md5] == r.completion.outcome.card
    ensures r.calledModel ==> r.loadedImage
  {
    if task.md5 in cache then
      TaskRun(cache, Completion(task.requestId, task.md5, CardJson(cache[task.md5])), false, false)
    else if !env.imageDecodes then
      TaskRun(cache, Completion(task.requestId, task.md5, Error(Some("Failed to load image"))), true, false)
    else if env.apiKey == "" then
      TaskRun(cache, Completion(task.requestId, task.md5, Error(Some("API Key missing"))), true, false)
    else
      match env.reply
      case Generated(card) =>
        TaskRun(cache[task.md5 := card], Completion(task.requestId, task.md5, CardJson(card)), true, true)
      case Failed(message) =>
        TaskRun(cache, Completion(task.requestId, task.md5, Error(message)), true, true)
  }

  /** A cache hit loads no image, calls no model, writes nothing and answers with the cached card. */
  lemma CacheHitDoesNoWork(task: Task, cache: map<string, CardData>, env: Env)
    requires task.md5 in cache
    ensures var r := RunTask(task, cache, env);
      && !r.loadedImage && !r.calledModel && r.cache == cache
      && r.completion.outcome == CardJson(cache[task.md5])
  {
  }

  /** A miss with a decodable image and a key caches exactly what the model answered. */
  lemma MissCachesGeneratedCard(task: Task, cache: map<string, CardData>, env: Env)
    requires task.md5 !in cache && env.imageDecodes && env.apiKey != "" && env.reply.Generated?
    ensures var r := RunTask(task, cache, env);
      && r.calledModel && r.cache == cache[task.md5 := env.reply.card]
      && r.completion.outcome == CardJson(env.reply.card)
  {
  }

  /** A missing key or an undecodable image fails the job without calling the model or touching the cache. */
  lemma MissWithoutImageOrKeyFails(task: Task, cache: map<string, CardData>, env: Env)
    requires task.md5 !in cache && (!env.imageDecodes || env.apiKey == "")
    ensures var r := RunTask(task, cache, env);
      && !r.calledModel && r.cache == cache && r.completion.outcome.Error?
  {
  }

  /** The cache changes only by gaining the card of a successful fresh generation. */
  lemma CacheGrowsOnlyOnSuccess(task: Task, cache: map<string, CardData>, env: Env)
    ensures var r := RunTask(task, cache, env);
      r.cache != cache <==> task.md5 !in cache && r.calledModel && r.completion.outcome.CardJson?
  {
  }

  /** The md5s a queue asks for. */
  function Md5s(queue: seq<Task>): set<string> {
    set t | t in queue :: t.md5
  }

  /**
   * Running a whole queue, each task against the cache its predecessors left,
   * with `envs[i]` the world during task i: one completion per task, and the
   * cache keeps its keys and gains only md5s the queue asked for.
   */
  function Drain(queue: seq<Task>, cache: map<string, CardData>, envs: seq<Env>): (r: (map<string, CardData>, seq<Completion>))
    requires |envs| >= |queue|
    ensures |r.1| == |queue|
    ensures cache.Keys <= r.0.Keys <= cache.Keys + Md5s(queue)
    decreases |queue|
  {
    if queue == [] then (cache, [])
    else
      var run := RunTask(queue[0], cache, envs[0]);
      var rest := Drain(queue[1..], run.cache, envs[1..]);
      assert Md5s(queue) == {queue[0].md5} + Md5s(queue[1..]) by {
        assert queue == [queue[0]] + queue[1..];
      }
      (rest.0, [run.completion] + rest.1)
  }

  /** Completions come out one per task, in queue order, each carrying its task's md5 and request id. */
  lemma {:induction false} DrainIsFifo(queue: seq<Task>, cache: map<string, CardData>, envs: seq<Env>)
    requires |envs| >= |queue|
    ensures var cs := Drain(queue, cache, envs).1;
      && |cs| == |queue|
      && forall i :: 0 <= i < |queue| ==> cs[i].md5 == queue[i].md5 && cs[i].requestId == queue[i].requestId
    decreases |queue|
  {
    if queue != [] {
      var run := RunTask(queue[0], cache, envs[0]);
      var rest := Drain(queue[1..], run.cache, envs[1..]);
      DrainIsFifo(queue[1..], run.cache, envs[1..]);
      var cs := [run.completion] + rest.1;
      assert Drain(queue, cache, envs).1 == cs;
      forall i | 0 <= i < |queue|
        ensures cs[i].md5 == queue[i].md5 && cs[i].requestId == queue[i].requestId
      {
        if i > 0 {
          assert cs[i] == rest.1[i - 1] && queue[i] == queue[1..][i - 1];
        }
      }
    }
  }

  /** A drained queue never forgets a cached card. */
  lemma {:induction false} DrainKeepsCache(queue: seq<Task>, cache: map<string, CardData>, envs: seq<Env>)
    requires |envs| >= |queue|
    ensures forall k :: k in cache ==> k in Drain(queue, cache, envs).0 && Drain(queue, cache, envs).0[k] == cache[k]
    decreases |queue|
  {
    if queue != [] {
      var run := RunTask(queue[0], cache, envs[0]);
      DrainKeepsCache(queue[1..], run.cache, envs[1..]);
    }
  }

  /** The cache file after one task: a fresh card is written with the whole cache when the write succeeds. */
  function Written(run: TaskRun, env: Env, disk: CardCache.CacheFile): CardCache.CacheFile {
    if run.calledModel && run.completion.outcome.CardJson? && env.cacheFileWritable
    then CardCache.Parsed(Some(run.cache)) else disk
  }

  /**
   * The cache file after running a whole queue, as `Drain` runs it: untouched
   * when no write can succeed, and otherwise either untouched or a map.
   */
  function DrainDisk(queue: seq<Task>, cache: map<string, CardData>, envs: seq<Env>, disk: CardCache.CacheFile): (r: CardCache.CacheFile)
    requires |envs| >= |queue|
    ensures (forall i :: 0 <= i < |queue| ==> !envs[i].cacheFileWritable) ==> r == disk
    ensures r == disk || (r.Parsed? && r.loaded.Some?)
    decreases |queue|
  {
    if queue == [] then disk
    else
      var run := RunTask(queue[0], cache, envs[0]);
      assert forall i :: 0 <= i < |queue[1..]| ==> envs[1..][i] == envs[i + 1];
      DrainDisk(queue[1..], run.cache, envs[1..], Written(run, envs[0], disk))
  }

  /**
   * With every write succeeding, the file never lags the cache: after a drain
   * it is untouched and the cache unchanged, or it holds exactly the final cache.
   */
  lemma {:induction false} DrainDiskInSync(queue: seq<Task>, cache: map<string, CardData>, envs: seq<Env>, disk: CardCache.CacheFile)
    requires |envs| >= |queue|
    requires forall i :: 0 <= i < |queue| ==> envs[i].cacheFileWritable
    ensures var d := Drain(queue, cache, envs);
      (DrainDisk(queue, cache, envs, disk) == disk && d.0 == cache)
      || DrainDisk(queue, cache, envs, disk) == CardCache.Parsed(Some(d.0))
    decreases |queue|
  {
    if queue != [] {
      var run := RunTask(queue[0], cache, envs[0]);
      assert forall i :: 0 <= i < |queue[1..]| ==> envs[1..][i] == envs[i + 1];
      DrainDiskInSync(queue[1..], run.cache, envs[1..], Written(run, envs[0], disk));
      CacheGrowsOnlyOnSuccess(queue[0], cache, envs[0]);
    }
  }

  /**
   * One task off the front of a drain: if the broadcasts so far plus the
   * drain of the queue are the whole answer, so are the broadcasts with the
   * head's completion plus the drain of the tail; likewise for the file.
   */
  lemma DrainStep(queue: seq<Task>, cache: map<string, CardData>, envs: seq<Env>, disk: CardCache.CacheFile,
                  sent: seq<Completion>, whole: seq<Completion>, final: map<string, CardData>, finalDisk: CardCache.CacheFile)
    requires |envs| >= |queue| > 0
    requires var d := Drain(queue, cache, envs); final == d.0 && whole == sent + d.1
    requires finalDisk == DrainDisk(queue, cache, envs, disk)
    ensures var run := RunTask(queue[0], cache, envs[0]);
      var rest := Drain(queue[1..], run.cache, envs[1..]);
      && final == rest.0 && whole == (sent + [run.completion]) + rest.1
      && finalDisk == DrainDisk(queue[1..], run.cache, envs[1..], Written(run, envs[0], disk))
  {
    var run := RunTask(queue[0], cache, envs[0]);
    var rest := Drain(queue[1..], run.cache, envs[1..]);
    assert sent + ([run.completion] + rest.1) == (sent + [run.completion]) + rest.1;
  }

  class GenerationService {
    var queue: seq<Task>
    var isRunning: bool
    var broadcasts: seq<Completion>
    const cards: CardCache.CardRepository

    /**
     * Between steps a task is running exactly when the queue is non-empty: the
     * running task is the head, and finishing one starts the next.
     */
    ghost predicate Valid()
      reads this
    {
      isRunning <==> |queue| > 0
    }

    constructor (cards: CardCache.CardRepository)
      ensures Valid() && queue == [] && !isRunning && broadcasts == [] && this.cards == cards
    {
      queue := [];
      isRunning := false;
      broadcasts := [];
      this.cards := cards;
    }

    /** `onCreate`: the service loads the card cache before it takes any job. */
    method OnCreate()
      modifies cards`cache, cards`isLoaded
      ensures cards.isLoaded
      ensures cards.cache == CardCache.AfterInit(old(cards.isLoaded), old(cards.cache), cards.disk)
    {
      cards.Init();
    }

    /** `onStartCommand`: enqueues a well-formed request, then tries to start the head. */
    method OnStartCommand(intent: Intent)
      requires Valid()
      modifies this`queue, this`isRunning
      ensures Valid()
      ensures queue == match TaskOf(intent) case Some(t) => old(queue) + [t] case None => old(queue)
      ensures isRunning == (old(isRunning) || |queue| > 0)
    {
      var task := TaskOf(intent);
      if task.Some? {
        queue := queue + [task.value];
        ProcessNext();
      }
    }

    /**
     * `processNext`: nothing while a task runs or when the queue is empty;
     * otherwise the head is started (peeked, not removed).
     */
    method ProcessNext()
      modifies this`isRunning
      ensures isRunning == (old(isRunning) || |queue| > 0)
    {
      if isRunning {
        return;
      }
      if |queue| == 0 {
        return;
      }
      isRunning := true;
    }

    /**
     * The executor job of a started task: answer the head, broadcast one
     * completion, remove the head, clear the flag and start the next task.
     */
    method RunHead(env: Env)
      requires Valid() && isRunning
      modifies this`queue, this`isRunning, this`broadcasts, cards`cache, cards`disk
      ensures Valid()
      ensures var run := RunTask(old(queue[0]), old(cards.cache), env);
        && cards.cache == run.cache
        && broadcasts == old(broadcasts) + [run.completion]
        && cards.disk == Written(run, env, old(cards.disk))
      ensures queue == old(queue[1..])
      ensures isRunning == (|queue| > 0)
    {
      var task := queue[0];
      var cached := cards.GetCard(task.md5);
      var completion: Completion;
      if cached.Some? {
        completion := Completion(task.requestId, task.md5, CardJson(cached.value));
      } else if !env.imageDecodes {
        completion := Completion(task.requestId, task.md5, Error(Some("Failed to load image")));
      } else if env.apiKey == "" {
        completion := Completion(task.requestId, task.md5, Error(Some("API Key missing")));
      } else {
        match env.reply {
          case Generated(card) =>
            cards.SaveCard(task.md5, card, env.cacheFileWritable);
            completion := Completion(task.requestId, task.md5, CardJson(card));
          case Failed(message) =>
            completion := Completion(task.requestId, task.md5, Error(message));
        }
      }
      broadcasts := broadcasts + [completion];
      queue := queue[1..];
      isRunning := false;
      if |queue| > 0 {
        ProcessNext();
      }
    }

    /**
     * The executor working through the started chain: each finished task
     * starts the next, until the queue is empty, with `envs[i]` the world
     * during task i. The broadcasts and the cache are exactly those of `Drain`.
     */
    method RunUntilIdle(envs: seq<Env>)
      requires Valid() && |envs| >= |queue|
      modifies this`queue, this`isRunning, this`broadcasts, cards`cache, cards`disk
      ensures Valid() && queue == [] && !isRunning
      ensures var d := Drain(old(queue), old(cards.cache), envs);
        cards.cache == d.0 && broadcasts == old(broadcasts) + d.1
      ensures cards.disk == DrainDisk(old(queue), old(cards.cache), envs, old(cards.disk))
    {
      ghost var d0 := Drain(queue, cards.cache, envs);
      ghost var b0 := broadcasts;
      ghost var q0 := queue;
      ghost var disk0 := DrainDisk(queue, cards.cache, envs, cards.disk);
      var i := 0;
      while |queue| > 0
        invariant Valid() && 0 <= i <= |q0| && queue == q0[i..] && |envs| >= |q0|
        invariant var d := Drain(queue, cards.cache, envs[i..]);
          d0.0 == d.0 && b0 + d0.1 == broadcasts + d.1
        invariant disk0 == DrainDisk(queue, cards.cache, envs[i..], cards.disk)
        decreases |queue|
      {
        DrainStep(queue, cards.cache, envs[i..], cards.disk, broadcasts, b0 + d0.1, d0.0, disk0);
        assert envs[i..][1..] == envs[i + 1..];
        RunHead(envs[i]);
        assert queue == q0[i + 1..];
        i := i + 1;
      }
    }
  }
}
