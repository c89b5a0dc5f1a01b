/** What one webhook request does, as functions of the state before it: the
    router `handle` and the handlers it dispatches to. The class in module
    Receiver performs the same steps one side effect at a time and is proved
    to end in the state these functions compute. */
module Handlers {
  import opened Types
  import opened Records
  import opened Store

  /** The handler a `meta.event` value reaches. */
  datatype Route = PublishRoute | UpdateRoute | DeleteRoute | TestRoute | MissingRoute

  /** The `switch` in `handle`: the four event names go to their handler,
      anything else (another string, or no event at all once the payload
      filter has run) to `missingMethod`. */
  function RouteOf(event: Option<string>): (h: Route)
    ensures h.PublishRoute? <==> event == Some("publish")
    ensures h.UpdateRoute? <==> event == Some("update")
    ensures h.DeleteRoute? <==> event == Some("delete")
    ensures h.TestRoute? <==> event == Some("test")
    ensures h.MissingRoute? <==> event !in {Some("publish"), Some("update"), Some("delete"), Some("test")}
  {
    if event == Some("publish") then PublishRoute
    else if event == Some("update") then UpdateRoute
    else if event == Some("delete") then DeleteRoute
    else if event == Some("test") then TestRoute
    else MissingRoute
  }

  /** PHP truthiness of a stored option. */
  predicate Truthy(v: Setting) {
    match v
    case Text(t) => !FalsyString(t)
    case Items(xs) => |xs| > 0
  }

  /** `(bool) get_sc_option('test_mode')`. */
  predicate TestMode(options: map<string, Setting>)
    ensures TestModeKey !in options ==> !TestMode(options)
    ensures TestModeKey in options && options[TestModeKey].Text? ==>
      (TestMode(options) <==> options[TestModeKey].text !in {"", "0"})
    ensures TestModeKey in options && options[TestModeKey].Items? ==>
      (TestMode(options) <==> options[TestModeKey].items != [])
  {
    TestModeKey in options && Truthy(options[TestModeKey])
  }

  /** `get_sc_option('post_type') ?: 'post'`. */
  function PostTypeSetting(options: map<string, Setting>): (postType: string)
    ensures !FalsyString(postType)
    ensures PostTypeKey in options && options[PostTypeKey].Text? && !FalsyString(options[PostTypeKey].text)
      ==> postType == options[PostTypeKey].text
    ensures !(PostTypeKey in options && options[PostTypeKey].Text? && !FalsyString(options[PostTypeKey].text))
      ==> postType == "post"
  {
    if PostTypeKey in options && options[PostTypeKey].Text? && Truthy(options[PostTypeKey])
    then options[PostTypeKey].text
    else "post"
  }

  /** The draft flag after the `storychief_is_draft_status` filter. */
  predicate IsDraft(env: Env, options: map<string, Setting>, story: Story) {
    env.isDraft(TestMode(options), story)
  }

  /** The post type after the `storychief_change_post_type` filter. */
  function PostTypeFor(env: Env, options: map<string, Setting>, story: Story): string {
    env.changePostType(PostTypeSetting(options), story)
  }

  /** The actions fired after the upsert, in order, ending with the cache flush. */
  function SavedActions(story: Story, id: Id): seq<Action> {
    [SaveAuthor(story), SaveTags(story), SaveCategories(story), SaveFeaturedImage(story),
     SaveSeo(story), SideloadImages(id), AfterPublish(story), CleanPostCache(id)]
  }

  /** What publish and update do once the post is written: fire the saved
      actions with the story carrying its id, flush the cache, and answer
      with the id and its permalink. */
  function Announce(s: State, env: Env, story: Story, id: Id): (r: (State, Body))
    ensures r.0.log == s.log + SavedActions(story.(externalId := Some(id)), id)
    ensures r.0.posts == s.posts && r.0.nextId == s.nextId && r.0.options == s.options && r.0.kses == s.kses
    ensures r.1 == IdLink(Some(id), Some(env.permalink(s.posts, id)))
  {
    var saved := story.(externalId := Some(id));
    var done := s.(log := s.log + SavedActions(saved, id));
    (done, IdLink(Some(id), Some(env.permalink(done.posts, id))))
  }

  /** `handlePublish`: inserts a new post built from the story and answers with
      the id the insert assigned. */
  function Publish(s: State, env: Env, p: Payload): (r: (State, Body))
    ensures var story, id := p.data, s.nextId;
      && r.1 == IdLink(Some(id), Some(env.permalink(r.0.posts, id)))
      && r.0.posts == s.posts[id := NewPost(PublishRecord(story, IsDraft(env, s.options, story), PostTypeFor(env, s.options, story)))]
      && r.0.posts[id].content == story.content
      && r.0.nextId == id + 1 && r.0.options == s.options && r.0.kses
      && r.0.log == s.log + [BeforePublish(story)] + SavedActions(story.(externalId := Some(id)), id)
    ensures Valid(s) ==> Valid(r.0) && s.nextId !in s.posts && r.0.posts.Keys == s.posts.Keys + {s.nextId}
  {
    var story := p.data;
    var announced := s.(log := s.log + [BeforePublish(story)]);
    var rec := PublishRecord(story, IsDraft(env, announced.options, story), PostTypeFor(env, announced.options, story));
    var (written, id) := Upsert(announced, env, rec);
    Announce(written, env, story, id)
  }

  /** `handleUpdate`: a 404 with nothing changed when the external id names no
      post; otherwise the post is rewritten in place under the same id. */
  function Update(s: State, env: Env, p: Payload): (r: (State, Outcome))
    ensures !Exists(s, p.data.externalId) ==> r == (s, Failed(PostNotFoundError))
    ensures Exists(s, p.data.externalId) ==>
      var story, id := p.data, p.data.externalId.value;
      && r.1 == Value(Some(IdLink(Some(id), Some(env.permalink(r.0.posts, id)))))
      && r.0.posts == s.posts[id := MergePost(s.posts[id], UpdateRecord(story, IsDraft(env, s.options, story), id))]
      && r.0.posts[id].content == story.content
      && r.0.posts.Keys == s.posts.Keys
      && r.0.nextId == s.nextId && r.0.options == s.options && r.0.kses
      && r.0.log == s.log + [BeforePublish(story)] + SavedActions(story, id)
    ensures Valid(s) ==> Valid(r.0)
  {
    var story := p.data;
    if !Exists(s, story.externalId) then (s, Failed(PostNotFoundError))
    else
      var announced := s.(log := s.log + [BeforePublish(story)]);
      var rec := UpdateRecord(story, IsDraft(env, announced.options, story), story.externalId.value);
      var (written, id) := Upsert(announced, env, rec);
      var (done, body) := Announce(written, env, story, id);
      (done, Value(Some(body)))
  }

  /** `handleDelete`: deletes whatever the external id names, without looking
      first, and always answers with that id and a null permalink. */
  function Delete(s: State, p: Payload): (r: (State, Body))
    ensures r.1 == IdLink(p.data.externalId, None)
    ensures r.0.posts == if p.data.externalId.Some? then s.posts - {p.data.externalId.value} else s.posts
    ensures r.0.log == s.log + [AfterDelete(p.data)]
    ensures r.0.nextId == s.nextId && r.0.options == s.options && r.0.kses == s.kses
    ensures Valid(s) ==> Valid(r.0)
  {
    var story := p.data;
    var gone := DeletePost(s, story.externalId);
    (gone.(log := gone.log + [AfterDelete(story)]), IdLink(story.externalId, None))
  }

  /** `handleConnectionCheck`: fires the test action and answers the empty array. */
  function ConnectionCheck(s: State, p: Payload): (r: (State, Body))
    ensures r.1 == EmptyBody
    ensures r.0.log == s.log + [AfterTest(p.data)]
    ensures r.0.posts == s.posts && r.0.nextId == s.nextId && r.0.options == s.options && r.0.kses == s.kses
  {
    (s.(log := s.log + [AfterTest(p.data)]), EmptyBody)
  }

  /** `missingMethod`: null. */
  function MissingMethod(): (response: Option<Body>)
    ensures response.None?
  {
    None
  }

  /** The switch of `handle`: runs exactly the handler the event routes to. */
  function Dispatch(s: State, env: Env, q: Payload): (r: (State, Outcome))
    ensures RouteOf(q.meta.event).PublishRoute? ==> r == (Publish(s, env, q).0, Value(Some(Publish(s, env, q).1)))
    ensures RouteOf(q.meta.event).UpdateRoute? ==> r == Update(s, env, q)
    ensures RouteOf(q.meta.event).DeleteRoute? ==> r == (Delete(s, q).0, Value(Some(Delete(s, q).1)))
    ensures RouteOf(q.meta.event).TestRoute? ==> r == (ConnectionCheck(s, q).0, Value(Some(EmptyBody)))
    ensures RouteOf(q.meta.event).MissingRoute? ==> r == (s, Value(None))
    ensures r.1.Failed? <==> RouteOf(q.meta.event).UpdateRoute? && !Exists(s, q.data.externalId)
    ensures r.1.Failed? ==> r == (s, Failed(PostNotFoundError))
    ensures r.0.options == s.options && s.log <= r.0.log && s.nextId <= r.0.nextId
    ensures s.kses ==> r.0.kses
    ensures Valid(s) ==> Valid(r.0)
    ensures forall id :: id in s.posts && !(RouteOf(q.meta.event).DeleteRoute? && q.data.externalId == Some(id))
              ==> id in r.0.posts
    ensures forall id :: id in r.0.posts && id !in s.posts ==> s.nextId <= id
  {
    match RouteOf(q.meta.event)
    case PublishRoute =>
      var (t, b) := Publish(s, env, q);
      (t, Value(Some(b)))
    case UpdateRoute => Update(s, env, q)
    case DeleteRoute =>
      var (t, b) := Delete(s, q);
      (t, Value(Some(b)))
    case TestRoute =>
      var (t, b) := ConnectionCheck(s, q);
      (t, Value(Some(b)))
    case MissingRoute => (s, Value(MissingMethod()))
  }

  /** The request passes both gates: a valid MAC, then an event. */
  predicate Admitted(env: Env, p: Payload) {
    env.validMac(p) && p.meta.event.Some?
  }

  /** The state once `fb-page-ids` of the filtered payload, if present, is stored. */
  function Configured(s: State, q: Payload): (t: State)
    ensures t.posts == s.posts && t.nextId == s.nextId && t.kses == s.kses && t.log == s.log
    ensures q.meta.fbPageIds.Some? ==> t.options == s.options[FbPagesKey := q.meta.fbPageIds.value]
    ensures q.meta.fbPageIds.None? ==> t.options == s.options
  {
    if q.meta.fbPageIds.Some? then s.(options := s.options[FbPagesKey := q.meta.fbPageIds.value]) else s
  }

  /** The request is an admitted delete of `id`. */
  predicate DeletesPost(env: Env, p: Payload, id: Id) {
    var q := env.beforeHandle(p);
    Admitted(env, p) && RouteOf(q.meta.event).DeleteRoute? && q.data.externalId == Some(id)
  }

  /** `appendMac` on a non-null response, then `rest_ensure_response`. */
  function Signed(env: Env, v: Option<Body>): (reply: Reply)
    ensures reply.Response? && reply.body == v
    ensures reply.mac.Some? <==> v.Some?
    ensures v.Some? ==> reply.mac == Some(env.sign(v.value))
  {
    if v.Some? then Response(v, Some(env.sign(v.value))) else Response(None, None)
  }

  /** `handle`: the MAC gate, then the event gate, then the payload filter, the
      `fb-page-ids` option, the dispatch, and for a non-error result the
      response filter and the MAC on a non-null response. */
  function Handle(s: State, env: Env, p: Payload): (r: (State, Reply))
    ensures !env.validMac(p) ==> r == (s, Failure(InvalidMacError))
    ensures Admitted(env, p) ==>
      var q := env.beforeHandle(p);
      var (t, out) := Dispatch(Configured(s, q), env, q);
      r == (t, if out.Failed? then Failure(out.error) else Signed(env, env.alterResponse(out.response)))
    ensures env.validMac(p) && p.meta.event.None? ==> r == (s, Failure(NoEventTypeError))
    ensures (Admitted(env, p) && RouteOf(env.beforeHandle(p).meta.event).UpdateRoute?
             && !Exists(s, env.beforeHandle(p).data.externalId)) ==> r.1 == Failure(PostNotFoundError)
    ensures r.1.Failure? ==> r.1.error in {InvalidMacError, NoEventTypeError, PostNotFoundError}
    ensures r.1.Failure? ==> r.0.posts == s.posts && r.0.nextId == s.nextId && r.0.kses == s.kses && r.0.log == s.log
    ensures r.1.Response? ==> r.1.mac == if r.1.body.Some? then Some(env.sign(r.1.body.value)) else None
    ensures !Admitted(env, p) ==> r.0.options == s.options
    ensures Admitted(env, p) ==> r.0.options == Configured(s, env.beforeHandle(p)).options
    ensures s.log <= r.0.log && s.nextId <= r.0.nextId
    ensures s.kses ==> r.0.kses
    ensures Valid(s) ==> Valid(r.0)
    ensures forall id :: id in s.posts && !DeletesPost(env, p, id) ==> id in r.0.posts
    ensures forall id :: id in r.0.posts && id !in s.posts ==> s.nextId <= id
  {
    if !env.validMac(p) then (s, Failure(InvalidMacError))
    else if p.meta.event.None? then (s, Failure(NoEventTypeError))
    else
      var q := env.beforeHandle(p);
      var (handled, outcome) := Dispatch(Configured(s, q), env, q);
      match outcome
      case Failed(e) => (handled, Failure(e))
      case Value(v) => (handled, Signed(env, env.alterResponse(v)))
  }
}
