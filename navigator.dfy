/**
 * The three reusable navigation flows (navigator.SearchList, ChangePage and BackToHome).
 *
 * Each flow is specified by a function from the stores before the call to the stores after it
 * and the actions it takes, and implemented by a method over the live store objects and the
 * action log whose postcondition is that function. The builder is the feature's component
 * builder (its page and session handle arguments as the Go signature has them); the searcher's
 * answer and the fresh session handle are given to the flow, since the code obtains them from
 * an external client and from uuid.New.
 */
module Navigator {
  import opened Wrappers
  import opened Errors
  import opened Cache
  import opened Transport
  import opened Cid
  import Base64Url

  /** A feature's result store and the global session index. */
  datatype Stores<V> = Stores(results: map<string, V>, sessions: map<string, string>)

  /** The stores after a flow and the actions the flow took, in order. */
  datatype Step<V, O> = Step(stores: Stores<V>, actions: seq<Action<O>>)

  type Builder<!V, O> = (V, int, string) -> Outcome<O>

  /**
   * navigator.SearchList. `keyword` is utils.GetOptions(i, "keyword") as the bytes of the Go
   * string or the option error, `handle` the uuid minted for the new session, `search` what the
   * searcher closure returns if it is called.
   */
  function SearchListSpec<V, O>(st: Stores<V>, keyword: Result<seq<Base64Url.byte>, Err>,
                                handle: string, search: Result<V, Err>, build: Builder<V, O>): Step<V, O>
  {
    match keyword
    case Failure(e) => Step(st, [Report(e, Respond)])
    case Success(kw) =>
      var key := Base64Url.ContentKey(kw);
      match Get(st.results, key)
      case Success(v) =>
        Step(Stores(st.results, st.sessions[handle := key]), [Deliver(build(v, 1, handle), Respond, Respond)])
      case Failure(_) =>
        match search
        case Failure(e) => Step(st, [DeferredAck, Search, Report(e, WebhookEdit)])
        case Success(res) =>
          Step(Stores(st.results[key := res], st.sessions[handle := key]),
               [DeferredAck, Search, Deliver(build(res, 1, handle), WebhookEdit, WebhookEdit)])
  }

  /** The two-stage lookup: session handle to content key, content key to cached value. */
  function Resolve<V>(st: Stores<V>, handle: string): (r: Result<V, Err>)
    ensures r.Success? <==> handle in st.sessions && st.sessions[handle] in st.results
    ensures r.Success? ==> r.value == st.results[st.sessions[handle]]
    ensures r.Failure? ==> r.error == ErrCacheLost
  {
    match Get(st.sessions, handle)
    case Failure(e) => Failure(e)
    case Success(key) => Get(st.results, key)
  }

  /** The single response of ChangePage and BackToHome once the lookup is done. */
  function Render<V, O>(st: Stores<V>, handle: string, page: int, build: Builder<V, O>, okVia: Channel): Action<O>
  {
    match Resolve(st, handle)
    case Failure(e) => Report(e, EditComplex)
    case Success(v) => Deliver(build(v, page, handle), okVia, EditComplex)
  }

  /** navigator.ChangePage: acknowledge, resolve the token's handle, build the token's page. */
  function ChangePageSpec<V, O>(st: Stores<V>, p: PageCID, build: Builder<V, O>): Step<V, O>
  {
    Step(st, [DeferredUpdate, Render(st, p.cacheID, p.value, build, WebhookEdit)])
  }

  /** navigator.BackToHome: only for a BackToHome token; page 1 of the token's session. */
  function BackToHomeSpec<V, O>(st: Stores<V>, c: CIDV2, build: Builder<V, O>): Step<V, O>
  {
    if !c.behavior.BackToHome? then Step(st, [Report(BehaviorIdError, EditComplex)])
    else Step(st, [Render(st, c.cacheID, 1, build, EditComplex)])
  }

  method SearchList<V, O>(index: SessionIndex, store: CacheStore<V>, log: Transcript<O>,
                          keyword: Result<seq<Base64Url.byte>, Err>, handle: string,
                          search: Result<V, Err>, build: Builder<V, O>)
    modifies index, store, log
    ensures var s := SearchListSpec(Stores(old(store.entries), old(index.entries)), keyword, handle, search, build);
      Stores(store.entries, index.entries) == s.stores && log.actions == old(log.actions) + s.actions
  {
    if keyword.Failure? {
      log.Emit(Report(keyword.error, Respond));
      return;
    }
    var key := Base64Url.ContentKey(keyword.value);
    var cached := store.Lookup(key);
    if cached.Success? {
      index.Set(handle, key);
      log.Emit(Deliver(build(cached.value, 1, handle), Respond, Respond));
      return;
    }
    log.Emit(DeferredAck);
    log.Emit(Search);
    if search.Failure? {
      log.Emit(Report(search.error, WebhookEdit));
      return;
    }
    store.Set(key, search.value);
    index.Set(handle, key);
    log.Emit(Deliver(build(search.value, 1, handle), WebhookEdit, WebhookEdit));
  }

  method ChangePage<V, O>(index: SessionIndex, store: CacheStore<V>, log: Transcript<O>,
                          p: PageCID, build: Builder<V, O>)
    modifies log
    ensures var s := ChangePageSpec(Stores(store.entries, index.entries), p, build);
      log.actions == old(log.actions) + s.actions
  {
    log.Emit(DeferredUpdate);
    var key := index.Lookup(p.cacheID);
    if key.Failure? {
      log.Emit(Report(key.error, EditComplex));
      return;
    }
    var cached := store.Lookup(key.value);
    if cached.Failure? {
      log.Emit(Report(cached.error, EditComplex));
      return;
    }
    log.Emit(Deliver(build(cached.value, p.value, p.cacheID), WebhookEdit, EditComplex));
  }

  method BackToHome<V, O>(index: SessionIndex, store: CacheStore<V>, log: Transcript<O>,
                          c: CIDV2, build: Builder<V, O>)
    modifies log
    ensures var s := BackToHomeSpec(Stores(store.entries, index.entries), c, build);
      log.actions == old(log.actions) + s.actions
  {
    if !c.behavior.BackToHome? {
      log.Emit(Report(BehaviorIdError, EditComplex));
      return;
    }
    var key := index.Lookup(c.cacheID);
    if key.Failure? {
      log.Emit(Report(key.error, EditComplex));
      return;
    }
    var cached := store.Lookup(key.value);
    if cached.Failure? {
      log.Emit(Report(cached.error, EditComplex));
      return;
    }
    log.Emit(Deliver(build(cached.value, 1, c.cacheID), EditComplex, EditComplex));
  }

  // ---- SearchList ----

  /** A missing keyword option is reported at once; no store changes and nothing is searched. */
  lemma KeywordMissing<V, O>(st: Stores<V>, e: Err, handle: string, search: Result<V, Err>, build: Builder<V, O>)
    ensures var s := SearchListSpec(st, Failure(e), handle, search, build);
      s.stores == st && s.actions == [Report(e, Respond)] && Search !in s.actions
  {
  }

  /**
   * On a hit the cached value is rendered at page 1 for the new handle and answered at once:
   * the handle is indexed to the content key, the result store is untouched, there is no
   * deferred acknowledgment and no search.
   */
  lemma SearchHit<V, O>(st: Stores<V>, kw: seq<Base64Url.byte>, handle: string, search: Result<V, Err>, build: Builder<V, O>)
    requires Base64Url.ContentKey(kw) in st.results
    ensures var key := Base64Url.ContentKey(kw);
      var s := SearchListSpec(st, Success(kw), handle, search, build);
      && s.stores == Stores(st.results, st.sessions[handle := key])
      && s.actions == [Deliver(build(st.results[key], 1, handle), Respond, Respond)]
      && Search !in s.actions && DeferredAck !in s.actions
  {
  }

  /** On a miss the deferred acknowledgment goes out before the searcher is called. */
  lemma SearchMissAcksFirst<V, O>(st: Stores<V>, kw: seq<Base64Url.byte>, handle: string, search: Result<V, Err>, build: Builder<V, O>)
    requires Base64Url.ContentKey(kw) !in st.results
    ensures var s := SearchListSpec(st, Success(kw), handle, search, build);
      |s.actions| == 3 && s.actions[0] == DeferredAck && s.actions[1] == Search
  {
  }

  /** A failed search leaves both stores as they were and reports through the webhook edit. */
  lemma SearchFailure<V, O>(st: Stores<V>, kw: seq<Base64Url.byte>, handle: string, e: Err, build: Builder<V, O>)
    requires Base64Url.ContentKey(kw) !in st.results
    ensures var s := SearchListSpec(st, Success(kw), handle, Failure(e), build);
      s.stores == st && s.actions[|s.actions| - 1] == Report(e, WebhookEdit)
  {
  }

  /**
   * A successful search stores the result under the content key and indexes the handle to it,
   * changes no other key of either store, and renders page 1 of the result for the handle.
   */
  lemma SearchSuccess<V, O>(st: Stores<V>, kw: seq<Base64Url.byte>, handle: string, res: V, build: Builder<V, O>)
    requires Base64Url.ContentKey(kw) !in st.results
    ensures var key := Base64Url.ContentKey(kw);
      var s := SearchListSpec(st, Success(kw), handle, Success(res), build);
      && s.stores.results == st.results[key := res]
      && s.stores.sessions == st.sessions[handle := key]
      && (forall k :: k != key ==> Get(s.stores.results, k) == Get(st.results, k))
      && (forall h :: h != handle ==> Get(s.stores.sessions, h) == Get(st.sessions, h))
      && s.actions[2] == Deliver(build(res, 1, handle), WebhookEdit, WebhookEdit)
  {
  }

  /**
   * Miss, then hit: after a successful search the content key holds exactly the fetched
   * result, and the new handle resolves to it.
   */
  lemma MissThenHit<V, O>(st: Stores<V>, kw: seq<Base64Url.byte>, handle: string, res: V, build: Builder<V, O>)
    requires Base64Url.ContentKey(kw) !in st.results
    ensures var s := SearchListSpec(st, Success(kw), handle, Success(res), build);
      Get(s.stores.results, Base64Url.ContentKey(kw)) == Success(res)
      && Resolve(s.stores, handle) == Success(res)
  {
  }

  /**
   * Idempotent search: once a search for a keyword has found or stored a result, a second
   * search for an equal keyword never calls the searcher and renders the stored result.
   */
  lemma IdempotentSearch<V, O>(st: Stores<V>, kw1: seq<Base64Url.byte>, kw2: seq<Base64Url.byte>,
                               h1: string, h2: string, s1: Result<V, Err>, s2: Result<V, Err>, build: Builder<V, O>)
    requires kw1 == kw2
    requires Base64Url.ContentKey(kw1) in st.results || s1.Success?
    ensures var first := SearchListSpec(st, Success(kw1), h1, s1, build);
      var second := SearchListSpec(first.stores, Success(kw2), h2, s2, build);
      var key := Base64Url.ContentKey(kw2);
      && Search !in second.actions
      && key in first.stores.results
      && second.actions == [Deliver(build(first.stores.results[key], 1, h2), Respond, Respond)]
  {
  }

  /** Two keywords share a content key exactly when they are the same keyword. */
  lemma SameKeySameKeyword(kw1: seq<Base64Url.byte>, kw2: seq<Base64Url.byte>)
    ensures Base64Url.ContentKey(kw1) == Base64Url.ContentKey(kw2) <==> kw1 == kw2
  {
    Base64Url.ContentKeyInjective(kw1, kw2);
  }

  // ---- ChangePage ----

  /**
   * ChangePage acknowledges first, answers exactly once, and changes neither store.
   */
  lemma ChangePageShape<V, O>(st: Stores<V>, p: PageCID, build: Builder<V, O>)
    ensures var s := ChangePageSpec(st, p, build);
      s.stores == st && |s.actions| == 2 && s.actions[0] == DeferredUpdate
  {
  }

  /**
   * An unknown or expired handle, or an evicted result, is reported as ErrCacheLost on the
   * edit path; the builder is not called, so the answer is the same whatever it is.
   */
  lemma ChangePageExpired<V, O>(st: Stores<V>, p: PageCID, b1: Builder<V, O>, b2: Builder<V, O>)
    requires p.cacheID !in st.sessions || st.sessions[p.cacheID] !in st.results
    ensures ChangePageSpec(st, p, b1).actions == [DeferredUpdate, Report(ErrCacheLost, EditComplex)]
    ensures ChangePageSpec(st, p, b1) == ChangePageSpec(st, p, b2)
  {
  }

  /**
   * With a live session the builder gets the cached value, the token's page number unclamped
   * and the token's handle, and its output is the webhook edit.
   */
  lemma ChangePageRenders<V, O>(st: Stores<V>, p: PageCID, build: Builder<V, O>)
    requires p.cacheID in st.sessions && st.sessions[p.cacheID] in st.results
    ensures var v := st.results[st.sessions[p.cacheID]];
      ChangePageSpec(st, p, build).actions[1] == Deliver(build(v, p.value, p.cacheID), WebhookEdit, EditComplex)
  {
  }

  // ---- BackToHome ----

  /** A token of another behavior is refused before any lookup, whatever the stores hold. */
  lemma BackToHomeWrongBehavior<V, O>(st1: Stores<V>, st2: Stores<V>, c: CIDV2, build: Builder<V, O>)
    requires !c.behavior.BackToHome?
    ensures BackToHomeSpec(st1, c, build).actions == [Report(BehaviorIdError, EditComplex)]
    ensures BackToHomeSpec(st1, c, build).actions == BackToHomeSpec(st2, c, build).actions
  {
  }

  /** BackToHome never changes a store, and its answer does not depend on the token's value. */
  lemma BackToHomeIgnoresValue<V, O>(st: Stores<V>, c: CIDV2, v: string, build: Builder<V, O>)
    ensures BackToHomeSpec(st, c, build).stores == st
    ensures BackToHomeSpec(st, c, build) == BackToHomeSpec(st, c.(value := v), build)
  {
  }

  /**
   * With a live session the builder gets page 1 and the token's own handle, so the session
   * goes on; a missing handle or result is ErrCacheLost without a build.
   */
  lemma BackToHomeRenders<V, O>(st: Stores<V>, c: CIDV2, build: Builder<V, O>)
    requires c.behavior.BackToHome?
    ensures Resolve(st, c.cacheID).Success? ==>
      BackToHomeSpec(st, c, build).actions == [Deliver(build(Resolve(st, c.cacheID).value, 1, c.cacheID), EditComplex, EditComplex)]
    ensures Resolve(st, c.cacheID).Failure? ==>
      BackToHomeSpec(st, c, build).actions == [Report(ErrCacheLost, EditComplex)]
  {
  }
}
