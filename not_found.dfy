/**
  The storefront's 404 error-page cache: on a kernel exception the subscriber either leaves
  the event alone (debug mode, store-API proxy requests), renders non-404 errors uncached, or
  serves an HTTP 404 page (section 15.5.5 of RFC 9110) from a tag-aware cache, rendering and
  storing it on a miss. A change of the 404-page setting invalidates every cached page.

  The collaborators whose code is not part of this model (the error renderer, the context
  service, the context hash generator, md5, the cache tracer and the two extensibility events)
  are arbitrary functions given to the subscriber; nothing is assumed about them.
*/
module NotFound {
  import opened Wrappers
  import opened Php

  /** The tag every stored error page carries. */
  const ALL_TAG := "error-page"
  /** The setting whose change drops every cached error page. */
  const SYSTEM_CONFIG_KEY := "core.basicInformation.http404Page"
  const NAME_PREFIX := "error-page-"
  const HTTP_NOT_FOUND := 404

  /** The resolved sales-channel context object: opaque here. */
  type SalesChannelContext(==)
  /** The page object a rendered storefront response carries: opaque here. */
  type PageData(==)

  datatype Throwable = HttpException(statusCode: int) | OtherThrowable(message: string)

  predicate IsNotFound(t: Throwable) {
    t.HttpException? && t.statusCode == HTTP_NOT_FOUND
  }

  /** A storefront response; `data` and `context` are the per-request parts. */
  datatype Response = Response(content: string, statusCode: int, data: Option<PageData>, context: Option<SalesChannelContext>)

  /** The response with its page data and context set to null, as it is stored. */
  function Detached(r: Response): (stored: Response)
    ensures stored.content == r.content && stored.statusCode == r.statusCode
    ensures stored.data.None? && stored.context.None?
  {
    r.(data := None, context := None)
  }

  /** What the context service is asked to resolve a missing context from. */
  datatype ContextParameters = ContextParameters(
    salesChannelId: string,
    token: string,
    languageId: Option<string>,
    currencyId: Option<string>,
    domainId: Option<string>)

  /** The name of an error page: the page-specific cache tag. */
  function BuildName(salesChannelId: string, domainId: string, languageId: string): (name: string)
    ensures |name| == |NAME_PREFIX| + |salesChannelId| + |domainId| + |languageId|
    ensures name[..|NAME_PREFIX|] == NAME_PREFIX
    ensures name[|NAME_PREFIX|..] == salesChannelId + domainId + languageId
    ensures name[..|ALL_TAG|] == ALL_TAG && name != ALL_TAG && !IsFalsy(name)
  {
    NAME_PREFIX + salesChannelId + domainId + languageId
  }

  /** The cache key before the key event may change it: the page name, then the context digest. */
  function UnhookedKey(name: string, contextDigest: string): (key: string)
    ensures |key| == |name| + |contextDigest|
    ensures key[..|name|] == name && key[|name|..] == contextDigest
  {
    name + contextDigest
  }

  /** For one page name, two contexts share a key exactly when their digests agree. */
  lemma UnhookedKeySeparatesContexts(name: string, digest1: string, digest2: string)
    ensures UnhookedKey(name, digest1) == UnhookedKey(name, digest2) <==> digest1 == digest2
  {
    if UnhookedKey(name, digest1) == UnhookedKey(name, digest2) {
      assert digest1 == UnhookedKey(name, digest1)[|name|..];
    }
  }

  /** The tags of a stored page: traced tags, the page name and the global tag, passed through
      the tags event, then falsy values dropped and duplicates removed. */
  function GenerateTags(name: string, traced: seq<string>, tagsHook: seq<string> -> seq<string>): (tags: seq<string>)
    ensures NoDuplicates(tags)
    ensures forall t :: t in tags ==> !IsFalsy(t)
    ensures forall t :: t in tags <==> t in tagsHook(traced + [name, ALL_TAG]) && !IsFalsy(t)
  {
    ArrayUnique(ArrayFilter(tagsHook(traced + [name, ALL_TAG])))
  }

  /** An event without listeners: it hands back what it was given. */
  ghost predicate IsIdentity(keyHook: string -> string) {
    forall k :: keyHook(k) == k
  }

  /** The tags event never drops `tag` (true of the event without listeners). */
  ghost predicate KeepsTag(tagsHook: seq<string> -> seq<string>, tag: string) {
    forall tags :: tag in tags ==> tag in tagsHook(tags)
  }

  /** With a tags event that keeps them, a stored page is tagged with its name and the global tag. */
  lemma GeneratedTagsNamePage(salesChannelId: string, domainId: string, languageId: string,
                              traced: seq<string>, tagsHook: seq<string> -> seq<string>)
    requires KeepsTag(tagsHook, ALL_TAG) && KeepsTag(tagsHook, BuildName(salesChannelId, domainId, languageId))
    ensures var name := BuildName(salesChannelId, domainId, languageId);
            name in GenerateTags(name, traced, tagsHook) && ALL_TAG in GenerateTags(name, traced, tagsHook)
  {
    var name := BuildName(salesChannelId, domainId, languageId);
    var merged := traced + [name, ALL_TAG];
    assert merged[|traced|] == name && merged[|traced| + 1] == ALL_TAG;
  }

  /** The tags event without listeners: it hands back the tags it was given. */
  ghost predicate PassesTags(tagsHook: seq<string> -> seq<string>) {
    forall tags :: tagsHook(tags) == tags
  }

  /** Without listeners, a tag list that is already clean (no falsy tag, no repeat) is stored as
      built: the traced tags, then the page name, then the global tag, in that order. */
  lemma GeneratedTagsUnchanged(name: string, traced: seq<string>, tagsHook: seq<string> -> seq<string>)
    requires PassesTags(tagsHook)
    requires !IsFalsy(name) && forall i :: 0 <= i < |traced| ==> !IsFalsy(traced[i])
    requires NoDuplicates(traced + [name, ALL_TAG])
    ensures GenerateTags(name, traced, tagsHook) == traced + [name, ALL_TAG]
  {
    var merged := traced + [name, ALL_TAG];
    assert tagsHook(merged) == merged;
    ArrayFilterKeepsTruthy(merged);
    ArrayUniqueKeepsDistinct(merged);
  }

  datatype CacheEntry = CacheEntry(value: Response, tags: seq<string>)

  predicate Meets(a: seq<string>, b: seq<string>) {
    exists t :: t in a && t in b
  }

  /** The entries left after invalidating `tags`: those whose tags do not meet them. */
  function Invalidated(entries: map<string, CacheEntry>, tags: seq<string>): (r: map<string, CacheEntry>)
    ensures forall k :: k in r <==> k in entries && !Meets(entries[k].tags, tags)
    ensures forall k :: k in r ==> r[k] == entries[k]
  {
    map k | k in entries && !Meets(entries[k].tags, tags) :: entries[k]
  }

  /** Every entry carries `tag`. */
  ghost predicate AllCarry(entries: map<string, CacheEntry>, tag: string) {
    forall k :: k in entries ==> tag in entries[k].tags
  }

  /** Invalidating the global tag empties a cache whose every entry carries it. */
  lemma GlobalInvalidationEmpties(entries: map<string, CacheEntry>)
    requires AllCarry(entries, ALL_TAG)
    ensures Invalidated(entries, [ALL_TAG]) == map[]
  {
    var r := Invalidated(entries, [ALL_TAG]);
    forall k | k in entries ensures k !in r {
      assert ALL_TAG in entries[k].tags && ALL_TAG in [ALL_TAG];
    }
    assert r.Keys == {};
  }

  /** The tag-aware cache store, with invalidation taking effect at once. */
  class TagCache {
    var entries: map<string, CacheEntry>

    constructor ()
      ensures entries == map[]
    {
      entries := map[];
    }

    /** The lookup half of get-or-compute. */
    method Get(key: string) returns (hit: Option<Response>)
      ensures hit == if key in entries then Some(entries[key].value) else None
    {
      hit := if key in entries then Some(entries[key].value) else None;
    }

    /** The store half of get-or-compute: the computed value with the tags put on its item. */
    method Save(key: string, value: Response, tags: seq<string>)
      modifies this
      ensures entries == old(entries)[key := CacheEntry(value, tags)]
    {
      entries := entries[key := CacheEntry(value, tags)];
    }

    method Invalidate(tags: seq<string>)
      modifies this
      ensures entries == Invalidated(old(entries), tags)
    {
      entries := Invalidated(entries, tags);
    }
  }

  /** The request attributes and headers the subscriber reads; only the context is written. */
  class Request {
    const salesChannelId: Option<string>
    const domainId: Option<string>
    /** The attribute stored under the language header's name. */
    const languageIdAttribute: Option<string>
    /** The language header itself, which the context resolution reads. */
    const languageIdHeader: Option<string>
    const domainCurrencyId: Option<string>
    /** Whether the store-API proxy attribute is set. */
    const storeApiProxy: bool
    var context: Option<SalesChannelContext>

    constructor (salesChannelId: Option<string>, domainId: Option<string>, languageIdAttribute: Option<string>,
                 languageIdHeader: Option<string>, domainCurrencyId: Option<string>, storeApiProxy: bool,
                 context: Option<SalesChannelContext>)
      ensures this.salesChannelId == salesChannelId && this.domainId == domainId
      ensures this.languageIdAttribute == languageIdAttribute && this.languageIdHeader == languageIdHeader
      ensures this.domainCurrencyId == domainCurrencyId && this.storeApiProxy == storeApiProxy
      ensures this.context == context
    {
      this.salesChannelId := salesChannelId;
      this.domainId := domainId;
      this.languageIdAttribute := languageIdAttribute;
      this.languageIdHeader := languageIdHeader;
      this.domainCurrencyId := domainCurrencyId;
      this.storeApiProxy := storeApiProxy;
      this.context := context;
    }
  }

  /** The kernel exception event: the response slot and the propagation flag are written. */
  class ExceptionEvent {
    const request: Request
    const throwable: Throwable
    var response: Option<Response>
    var propagationStopped: bool

    constructor (request: Request, throwable: Throwable)
      ensures this.request == request && this.throwable == throwable
      ensures response == None && !propagationStopped
    {
      this.request := request;
      this.throwable := throwable;
      response := None;
      propagationStopped := false;
    }
  }

  /** The parameters a missing context is resolved from; `token` stands for the random hex id. */
  function ContextParametersFor(salesChannelId: Option<string>, languageIdHeader: Option<string>,
                                domainCurrencyId: Option<string>, domainId: Option<string>, token: string): (p: ContextParameters)
    ensures salesChannelId.None? ==> p.salesChannelId == ""
    ensures salesChannelId.Some? ==> p.salesChannelId == salesChannelId.value
    ensures p.token == token && p.languageId == languageIdHeader
    ensures p.currencyId == domainCurrencyId && p.domainId == domainId
  {
    ContextParameters(salesChannelId.GetOr(""), token, languageIdHeader, domainCurrencyId, domainId)
  }

  class NotFoundSubscriber {
    const kernelDebug: bool
    const cache: TagCache
    const renderer: (Throwable, Option<SalesChannelContext>) -> Response
    const contextService: ContextParameters -> SalesChannelContext
    const contextHash: SalesChannelContext -> string
    const md5: string -> string
    /** The tags the cache tracer recorded for a page name. */
    const tracedTags: string -> seq<string>
    /** The key event and the tags event, as transforms of the computed value. */
    const keyHook: string -> string
    const tagsHook: seq<string> -> seq<string>
    /** Every throwable the error renderer was invoked for, in order. */
    var renderLog: seq<Throwable>

    constructor (kernelDebug: bool, cache: TagCache,
                 renderer: (Throwable, Option<SalesChannelContext>) -> Response,
                 contextService: ContextParameters -> SalesChannelContext,
                 contextHash: SalesChannelContext -> string, md5: string -> string,
                 tracedTags: string -> seq<string>, keyHook: string -> string,
                 tagsHook: seq<string> -> seq<string>)
      ensures this.kernelDebug == kernelDebug && this.cache == cache && this.renderer == renderer
      ensures this.contextService == contextService && this.contextHash == contextHash && this.md5 == md5
      ensures this.tracedTags == tracedTags && this.keyHook == keyHook && this.tagsHook == tagsHook
      ensures renderLog == []
    {
      this.kernelDebug := kernelDebug;
      this.cache := cache;
      this.renderer := renderer;
      this.contextService := contextService;
      this.contextHash := contextHash;
      this.md5 := md5;
      this.tracedTags := tracedTags;
      this.keyHook := keyHook;
      this.tagsHook := tagsHook;
      renderLog := [];
    }

    predicate Bypasses(request: Request) {
      kernelDebug || request.storeApiProxy
    }

    function PageName(request: Request): string {
      BuildName(request.salesChannelId.GetOr(""), request.domainId.GetOr(""), request.languageIdAttribute.GetOr(""))
    }

    /** The cache key of a request's error page under a resolved context: the key event's
        answer for the unhooked key; without listeners, the page name followed by the digest. */
    function Key(request: Request, context: SalesChannelContext): (key: string)
      ensures IsIdentity(keyHook) ==> key == UnhookedKey(PageName(request), md5(contextHash(context)))
      ensures IsIdentity(keyHook) ==> key[..|PageName(request)|] == PageName(request)
    {
      keyHook(UnhookedKey(PageName(request), md5(contextHash(context))))
    }

    /** Resolves a context from the request and stores it on the request. */
    method SetSalesChannelContext(request: Request, token: string)
      modifies request
      ensures request.context == Some(contextService(ContextParametersFor(
        request.salesChannelId, request.languageIdHeader, request.domainCurrencyId, request.domainId, token)))
    {
      var parameters := ContextParametersFor(
        request.salesChannelId, request.languageIdHeader, request.domainCurrencyId, request.domainId, token);
      request.context := Some(contextService(parameters));
    }

    /** Handles a kernel exception; `token` is the random id a context resolution would use. */
    method OnError(event: ExceptionEvent, token: string)
      modifies this, event, event.request, cache
      ensures Bypasses(event.request) ==> unchanged(this, event, event.request, cache)
      ensures !Bypasses(event.request) ==> event.propagationStopped
      ensures !Bypasses(event.request) ==>
        (event.request.context ==
          Some(old(event.request.context).GetOr(contextService(ContextParametersFor(
            event.request.salesChannelId, event.request.languageIdHeader,
            event.request.domainCurrencyId, event.request.domainId, token)))))
      ensures !Bypasses(event.request) && !IsNotFound(event.throwable) ==>
        && event.response == Some(renderer(event.throwable, event.request.context))
        && cache.entries == old(cache.entries)
        && renderLog == old(renderLog) + [event.throwable]
      ensures !Bypasses(event.request) && IsNotFound(event.throwable) ==>
        var key := Key(event.request, event.request.context.value);
        if key in old(cache.entries) then
          && event.response == Some(old(cache.entries)[key].value)
          && cache.entries == old(cache.entries)
          && renderLog == old(renderLog)
        else
          var page := Detached(renderer(event.throwable, event.request.context));
          && event.response == Some(page)
          && cache.entries == old(cache.entries)[key := CacheEntry(page, GenerateTags(PageName(event.request), tracedTags(PageName(event.request)), tagsHook))]
          && renderLog == old(renderLog) + [event.throwable]
      ensures KeepsTag(tagsHook, ALL_TAG) && old(AllCarry(cache.entries, ALL_TAG)) ==> AllCarry(cache.entries, ALL_TAG)
    {
      var request := event.request;
      if kernelDebug || request.storeApiProxy {
        return;
      }

      event.propagationStopped := true;

      if request.context.None? {
        SetSalesChannelContext(request, token);
      }

      if !IsNotFound(event.throwable) {
        renderLog := renderLog + [event.throwable];
        event.response := Some(renderer(event.throwable, request.context));
        return;
      }

      var context := request.context.value;
      var name := PageName(request);
      var key := Key(request, context);

      var hit := cache.Get(key);
      if hit.Some? {
        event.response := hit;
      } else {
        renderLog := renderLog + [event.throwable];
        var page := Detached(renderer(event.throwable, request.context));
        var tags := GenerateTags(name, tracedTags(name), tagsHook);
        if KeepsTag(tagsHook, ALL_TAG) {
          var merged := tracedTags(name) + [name, ALL_TAG];
          assert merged[|merged| - 1] == ALL_TAG;
        }
        cache.Save(key, page, tags);
        event.response := Some(page);
      }
    }

    /** Drops every cached error page when the 404-page setting changes. */
    method OnSystemConfigChanged(key: string)
      modifies cache
      ensures key == SYSTEM_CONFIG_KEY ==> cache.entries == Invalidated(old(cache.entries), [ALL_TAG])
      ensures key != SYSTEM_CONFIG_KEY ==> cache.entries == old(cache.entries)
      ensures key == SYSTEM_CONFIG_KEY && old(AllCarry(cache.entries, ALL_TAG)) ==> cache.entries == map[]
    {
      if key != SYSTEM_CONFIG_KEY {
        return;
      }
      if AllCarry(cache.entries, ALL_TAG) {
        GlobalInvalidationEmpties(cache.entries);
      }
      cache.Invalidate([ALL_TAG]);
    }
  }

  /** Two 404s for the same request in a row: the second is served the first one's page from the
      cache, and the error page is rendered at most once. */
  method SecondNotFoundServedFromCache(subscriber: NotFoundSubscriber, first: ExceptionEvent,
                                       second: ExceptionEvent, token: string)
    requires first.request == second.request && first != second
    requires !subscriber.Bypasses(first.request)
    requires IsNotFound(first.throwable) && IsNotFound(second.throwable)
    modifies subscriber, subscriber.cache, first, second, first.request
    ensures second.response == first.response
    ensures |subscriber.renderLog| <= |old(subscriber.renderLog)| + 1
  {
    subscriber.OnError(first, token);
    subscriber.OnError(second, token);
  }
}
