/**
 * The web front end's logic: `answer_question` (the blank-question guard, the
 * pass-through of failed queries, and the numbered, truncated source list)
 * and `initialize_rag_chain`, the process-wide cache of the built chain.
 * The Gradio page itself is not modelled.
 */
module App {
  import opened Wrappers
  import opened Text
  import opened Settings
  import opened Rag

  const DisplayLimit: nat := 300
  const Ellipsis: string := "..."
  const NoSourcesText: string := "未找到相關法條"
  const ErrorPrefix: string := "❌ 錯誤: "

  /** The content shown for a source: at most 300 characters of it, then "..." when some were cut. */
  function Truncate(content: string): (r: string)
    ensures |r| <= DisplayLimit + |Ellipsis|
    ensures |content| <= DisplayLimit ==> r == content
    ensures |content| > DisplayLimit ==> |r| == DisplayLimit + |Ellipsis| && r[..DisplayLimit] == content[..DisplayLimit]
    ensures |content| > DisplayLimit ==> r[DisplayLimit..] == Ellipsis
  {
    if |content| > DisplayLimit then content[..DisplayLimit] + Ellipsis else content
  }

  /** The heading of a source: the law name, followed by the article when the source has a number. */
  function Label(lawName: string, articleNo: string): (r: string)
    ensures |r| >= |lawName| && r[..|lawName|] == lawName
    ensures r == lawName <==> articleNo == ""
    ensures articleNo != "" ==> r[|lawName|..] == " 第" + articleNo + "條"
  {
    if articleNo != "" then lawName + " 第" + articleNo + "條" else lawName
  }

  /** The entry for the `i`-th source (counting from 1). */
  function SourceEntry(i: nat, s: Source): string {
    "【" + NatToString(i) + "】" + Label(s.lawName, s.articleNo) + "\n" + Truncate(s.content)
  }

  function SourceEntries(sources: seq<Source>): (r: seq<string>)
    ensures |r| == |sources|
  {
    seq(|sources|, k requires 0 <= k < |sources| => SourceEntry(k + 1, sources[k]))
  }

  /** The source panel's text for the sources of a successful query. */
  function SourcesText(sources: seq<Source>): string {
    if sources == [] then NoSourcesText else Join("\n\n", SourceEntries(sources))
  }

  /** The source loop of `answer_question`: number the sources from 1 and join their entries. */
  method FormatSources(sources: seq<Source>) returns (text: string)
    ensures text == SourcesText(sources)
  {
    if sources == [] {
      return NoSourcesText;
    }
    var entries: seq<string> := [];
    for k := 0 to |sources|
      invariant entries == SourceEntries(sources[..k])
    {
      var i := k + 1;
      var content := sources[k].content;
      if |content| > DisplayLimit {
        content := content[..DisplayLimit] + Ellipsis;
      }
      var heading := if sources[k].articleNo != "" then sources[k].lawName + " 第" + sources[k].articleNo + "條"
                   else sources[k].lawName;
      assert content == Truncate(sources[k].content) && heading == Label(sources[k].lawName, sources[k].articleNo);
      entries := entries + ["【" + NatToString(i) + "】" + heading + "\n" + content];
      assert entries == SourceEntries(sources[..k]) + [SourceEntry(k + 1, sources[k])];
    }
    assert sources[..|sources|] == sources;
    text := Join("\n\n", entries);
  }

  /**
   * The panel reads "未找到相關法條" exactly when there are no sources; otherwise
   * it opens with the first entry, numbered 1.
   */
  lemma SourcesTextShape(sources: seq<Source>)
    ensures SourcesText(sources) == NoSourcesText <==> sources == []
    ensures sources != [] ==>
      var t, first := SourcesText(sources), SourceEntry(1, sources[0]);
      |t| >= |first| && t[..|first|] == first
    ensures SourcesText(sources) != ""
  {
    if sources != [] {
      var entries := SourceEntries(sources);
      JoinStartsWithFirst("\n\n", entries);
      var t := SourcesText(sources);
      assert t[0] == entries[0][0] == '【';
      assert NoSourcesText[0] != '【';
    }
  }

  /** What `answer_question` returns once the chain is (or fails to be) initialised. */
  function AnswerFor(question: string, init: Result<RagChain, RagError>): (r: (string, string))
    ensures IsBlank(question) ==> r == (EmptyQuestionAnswer, "")
    ensures !IsBlank(question) && init.Failure? ==> r == (ErrorPrefix + init.error.message, "")
    ensures !IsBlank(question) && init.Success? ==>
      var q := QueryAnswer(question, init.value);
      && r.0 == q.answer
      && (!q.success ==> r.1 == "")
      && (q.success ==> r.1 == SourcesText(q.sources))
  {
    if IsBlank(question) then (EmptyQuestionAnswer, "")
    else match init
      case Failure(e) => (ErrorPrefix + e.message, "")
      case Success(chain) =>
        var q := QueryAnswer(question, chain);
        if !q.success then (q.answer, "") else (q.answer, SourcesText(q.sources))
  }

  /** The source panel is empty exactly when no query succeeded. */
  lemma SourcesShownIffQuerySucceeded(question: string, init: Result<RagChain, RagError>)
    ensures AnswerFor(question, init).1 == "" <==>
      !(!IsBlank(question) && init.Success? && QueryAnswer(question, init.value).success)
  {
    if !IsBlank(question) && init.Success? && QueryAnswer(question, init.value).success {
      SourcesTextShape(QueryAnswer(question, init.value).sources);
    }
  }

  /** The cache after one call of `initialize_rag_chain`, the value it returned or raised, and the calls it made. */
  datatype InitOutcome<B> = InitOutcome(cache: Option<B>, result: Result<B, RagError>, steps: seq<Step>)

  /**
   * One call of `initialize_rag_chain`: a filled cache is returned as is;
   * an empty one is filled by `create_rag_chain` when that succeeds and
   * stays empty when it raises.
   */
  function InitStep<B>(cache: Option<B>, cfg: Config, env: Env<B>): (r: InitOutcome<B>)
    ensures cache.Some? ==> r.cache == cache && r.result == Success(cache.value) && r.steps == []
    ensures cache.None? ==> r.result == CreateRagChain(cfg, env).result && r.steps == CreateRagChain(cfg, env).steps
    ensures r.steps != [] <==> cache.None?
    ensures r.cache.Some? <==> r.result.Success?
    ensures r.result.Success? ==> r.cache == Some(r.result.value)
  {
    match cache
    case Some(chain) => InitOutcome(cache, Success(chain), [])
    case None =>
      var a := CreateRagChain(cfg, env);
      InitOutcome(if a.result.Success? then Some(a.result.value) else None, a.result, a.steps)
  }

  /** The cache after successive calls in environments `envs`, starting from `cache`. */
  function CacheAfter<B>(cache: Option<B>, cfg: Config, envs: seq<Env<B>>): Option<B> {
    if envs == [] then cache
    else InitStep(CacheAfter(cache, cfg, envs[..|envs| - 1]), cfg, envs[|envs| - 1]).cache
  }

  /** The outcome of call number `m` (from 0) of a run of calls. */
  function CallOutcome<B>(cache: Option<B>, cfg: Config, envs: seq<Env<B>>, m: nat): InitOutcome<B>
    requires m < |envs|
  {
    InitStep(CacheAfter(cache, cfg, envs[..m]), cfg, envs[m])
  }

  lemma CacheAfterStep<B>(cache: Option<B>, cfg: Config, envs: seq<Env<B>>, m: nat)
    requires m < |envs|
    ensures CacheAfter(cache, cfg, envs[..m + 1]) == CallOutcome(cache, cfg, envs, m).cache
  {
    assert envs[..m + 1][..m] == envs[..m];
  }

  /** Once filled, the cache never changes again. */
  lemma {:induction false} CacheSticks<B>(cache: Option<B>, cfg: Config, envs: seq<Env<B>>, k: nat, m: nat)
    requires k <= m <= |envs|
    requires CacheAfter(cache, cfg, envs[..k]).Some?
    ensures CacheAfter(cache, cfg, envs[..m]) == CacheAfter(cache, cfg, envs[..k])
    decreases m - k
  {
    if k < m {
      CacheAfterStep(cache, cfg, envs, k);
      CacheSticks(cache, cfg, envs, k + 1, m);
    }
  }

  /**
   * After one successful call, every later call returns the identical
   * cached chain and makes no call to the services.
   */
  lemma CachedChainReturned<B>(cache: Option<B>, cfg: Config, envs: seq<Env<B>>, k: nat, m: nat)
    requires k < m < |envs|
    requires CallOutcome(cache, cfg, envs, k).result.Success?
    ensures CallOutcome(cache, cfg, envs, m).result == CallOutcome(cache, cfg, envs, k).result
    ensures CallOutcome(cache, cfg, envs, m).steps == []
  {
    CacheAfterStep(cache, cfg, envs, k);
    CacheSticks(cache, cfg, envs, k + 1, m);
  }

  /** Starting empty, the cache is still empty exactly when every call so far has raised. */
  lemma {:induction false} EmptyIffAllFailed<B>(cfg: Config, envs: seq<Env<B>>, m: nat)
    requires m <= |envs|
    ensures CacheAfter(None, cfg, envs[..m]).None? <==>
      forall k :: 0 <= k < m ==> CallOutcome(None, cfg, envs, k).result.Failure?
  {
    if m > 0 {
      EmptyIffAllFailed(cfg, envs, m - 1);
      CacheAfterStep(None, cfg, envs, m - 1);
    }
  }

  /**
   * Starting empty, a call runs `create_rag_chain` (probes or builds
   * anything) exactly when no earlier call has succeeded.
   */
  lemma ConstructorOnlyWhileEmpty<B>(cfg: Config, envs: seq<Env<B>>, m: nat)
    requires m < |envs|
    ensures CallOutcome(None, cfg, envs, m).steps != [] <==>
      forall k :: 0 <= k < m ==> CallOutcome(None, cfg, envs, k).result.Failure?
  {
    EmptyIffAllFailed(cfg, envs, m);
  }

  /** The web application: its configuration and the global `_rag_chain_dict`. */
  class RagApp {
    var cache: Option<RagChain>
    const cfg: Config

    constructor (cfg: Config)
      ensures this.cfg == cfg && cache == None
    {
      this.cfg := cfg;
      cache := None;
    }

    /** `initialize_rag_chain()` in the services of `env`. */
    method InitializeRagChain(env: Env<RagChain>) returns (result: Result<RagChain, RagError>, steps: seq<Step>)
      modifies this
      ensures cache == InitStep(old(cache), cfg, env).cache
      ensures result == InitStep(old(cache), cfg, env).result
      ensures steps == InitStep(old(cache), cfg, env).steps
    {
      if cache.None? {
        var attempt := CreateRagChain(cfg, env);
        if attempt.result.Success? {
          cache := Some(attempt.result.value);
        }
        return attempt.result, attempt.steps;
      }
      return Success(cache.value), [];
    }

    /**
     * `answer_question(question)`: a blank question is answered at once
     * without touching the cache; any other initialises the chain (through
     * the cache) and queries it.
     */
    method AnswerQuestion(question: string, env: Env<RagChain>) returns (answer: string, sourcesText: string)
      modifies this
      ensures IsBlank(question) ==> cache == old(cache)
      ensures !IsBlank(question) ==> cache == InitStep(old(cache), cfg, env).cache
      ensures (answer, sourcesText) == AnswerFor(question, InitStep(old(cache), cfg, env).result)
    {
      if question == [] || Strip(question) == [] {
        return EmptyQuestionAnswer, "";
      }
      var init, _ := InitializeRagChain(env);
      if init.Failure? {
        return ErrorPrefix + init.error.message, "";
      }
      var result, _ := Query(question, init.value);
      if !result.success {
        return result.answer, "";
      }
      sourcesText := FormatSources(result.sources);
      answer := result.answer;
    }
  }
}
