/** The webhook as the plugin runs it: one object holding the post table, the
    plugin options, the global kses toggle and the actions fired so far, with
    `handle` and its handlers changing them one step at a time. Each method is
    proved to leave the state the matching function of module Handlers or
    Store computes from the state before the call. */
module Receiver {
  import opened Types
  import Store
  import Records
  import Handlers

  class Webhook {
    var posts: map<Id, Post>
    var nextId: Id
    var options: map<string, Setting>
    var ksesEnabled: bool
    var log: seq<Action>
    /** The MAC, the filters, permalinks and the sanitiser. */
    const env: Env

    function Snapshot(): State
      reads this
    {
      State(posts, nextId, options, ksesEnabled, log)
    }

    /** The store invariant: ids positive and below the counter. */
    ghost predicate Valid()
      reads this
    {
      Store.Valid(Snapshot())
    }

    constructor (env: Env, initial: State)
      requires Store.Valid(initial)
      ensures Valid() && Snapshot() == initial
    {
      this.env := env;
      posts, nextId, options := initial.posts, initial.nextId, initial.options;
      ksesEnabled, log := initial.kses, initial.log;
    }

    /** `do_action`: recorded, nothing else changes. */
    method DoAction(a: Action)
      requires Valid()
      modifies this
      ensures Valid()
      ensures Snapshot() == old(Snapshot()).(log := old(log) + [a])
    {
      log := log + [a];
    }

    /** `update_sc_option`. */
    method UpdateOption(key: string, value: Setting)
      requires Valid()
      modifies this
      ensures Valid()
      ensures Snapshot() == old(Snapshot()).(options := old(options)[key := value])
    {
      options := options[key := value];
    }

    /** `wp_insert_post`. */
    method InsertPost(rec: PostRecord) returns (id: Id)
      requires Valid()
      modifies this
      ensures Valid()
      ensures (Snapshot(), id) == Store.InsertPost(old(Snapshot()), env, rec)
    {
      id := nextId;
      posts := posts[id := Store.NewPost(Store.Sanitize(env, ksesEnabled, rec))];
      nextId := nextId + 1;
    }

    /** `wp_update_post`. */
    method UpdatePost(rec: PostRecord) returns (id: Id)
      requires rec.id.Some?
      requires Valid()
      modifies this
      ensures Valid()
      ensures (Snapshot(), id) == Store.UpdatePost(old(Snapshot()), env, rec)
    {
      id := rec.id.value;
      if id in posts {
        posts := posts[id := Store.MergePost(posts[id], Store.Sanitize(env, ksesEnabled, rec))];
      } else {
        id := 0;
      }
    }

    /** `wp_delete_post`. */
    method DeletePost(id: Option<Id>)
      requires Valid()
      modifies this
      ensures Valid()
      ensures Snapshot() == Store.DeletePost(old(Snapshot()), id)
    {
      if id.Some? {
        posts := posts - {id.value};
      }
    }

    /** `safely_upsert_story`: kses off, update or insert, kses on. */
    method SafelyUpsertStory(data: PostRecord) returns (postId: Id)
      requires Valid()
      modifies this
      ensures Valid()
      ensures (Snapshot(), postId) == Store.Upsert(old(Snapshot()), env, data)
      ensures ksesEnabled && log == old(log) && options == old(options)
    {
      ksesEnabled := false;
      if data.id.Some? {
        postId := UpdatePost(data);
      } else {
        postId := InsertPost(data);
      }
      ksesEnabled := true;
    }

    /** The actions after the upsert, the cache flush and the permalink, shared
        by publish and update. */
    method Announce(story: Story, postId: Id) returns (response: Body)
      requires Valid()
      modifies this
      ensures Valid()
      ensures (Snapshot(), response) == Handlers.Announce(old(Snapshot()), env, story, postId)
    {
      var saved := story.(externalId := Some(postId));
      DoAction(SaveAuthor(saved));
      DoAction(SaveTags(saved));
      DoAction(SaveCategories(saved));
      DoAction(SaveFeaturedImage(saved));
      DoAction(SaveSeo(saved));
      DoAction(SideloadImages(postId));
      DoAction(AfterPublish(saved));
      DoAction(CleanPostCache(postId));
      assert log == old(log) + Handlers.SavedActions(saved, postId);
      var permalink := env.permalink(posts, postId);
      response := IdLink(Some(postId), Some(permalink));
    }

    /** `handlePublish`. */
    method HandlePublish(payload: Payload) returns (response: Body)
      requires Valid()
      modifies this
      ensures Valid()
      ensures (Snapshot(), response) == Handlers.Publish(old(Snapshot()), env, payload)
      ensures response.IdLink? && response.id == Some(old(nextId))
      ensures old(nextId) !in old(posts) && posts.Keys == old(posts.Keys) + {old(nextId)}
    {
      var story := payload.data;
      DoAction(BeforePublish(story));
      var isDraft := Handlers.TestMode(options);
      isDraft := env.isDraft(isDraft, story);
      var postType := Handlers.PostTypeSetting(options);
      postType := env.changePostType(postType, story);
      var post := PostRecord(
        id := None,
        postType := Some(postType),
        title := story.title,
        content := story.content,
        excerpt := if NonEmpty(story.excerpt) then story.excerpt.value else "",
        status := if isDraft then "draft" else "publish",
        name := None,
        meta := map[]);
      if NonEmpty(story.seoSlug) {
        post := post.(name := story.seoSlug);
      }
      if story.amphtml.Some? {
        post := post.(meta := post.meta["_amphtml" := story.amphtml.value]);
      }
      assert post == Records.PublishRecord(story, isDraft, postType);
      var postId := SafelyUpsertStory(post);
      response := Announce(story, postId);
    }

    /** `handleUpdate`. */
    method HandleUpdate(payload: Payload) returns (response: Outcome)
      requires Valid()
      modifies this
      ensures Valid()
      ensures (Snapshot(), response) == Handlers.Update(old(Snapshot()), env, payload)
      ensures response.Failed? ==> response.error == PostNotFoundError && Snapshot() == old(Snapshot())
    {
      var story := payload.data;
      if !Store.Exists(Snapshot(), story.externalId) {
        return Failed(PostNotFoundError);
      }
      DoAction(BeforePublish(story));
      var isTestMode := Handlers.TestMode(options);
      var isDraft := env.isDraft(isTestMode, story);
      var post := PostRecord(
        id := story.externalId,
        postType := None,
        title := story.title,
        content := story.content,
        excerpt := if NonEmpty(story.excerpt) then story.excerpt.value else "",
        status := if isDraft then "draft" else "publish",
        name := None,
        meta := map[]);
      if NonEmpty(story.seoSlug) {
        post := post.(name := story.seoSlug);
      }
      if story.amphtml.Some? {
        post := post.(meta := post.meta["_amphtml" := story.amphtml.value]);
      }
      assert post == Records.UpdateRecord(story, isDraft, story.externalId.value);
      var postId := SafelyUpsertStory(post);
      var body := Announce(story, postId);
      response := Value(Some(body));
    }

    /** `handleDelete`. */
    method HandleDelete(payload: Payload) returns (response: Body)
      requires Valid()
      modifies this
      ensures Valid()
      ensures (Snapshot(), response) == Handlers.Delete(old(Snapshot()), payload)
      ensures response == IdLink(payload.data.externalId, None)
    {
      var story := payload.data;
      var postId := story.externalId;
      DeletePost(postId);
      DoAction(AfterDelete(story));
      response := IdLink(story.externalId, None);
    }

    /** `handleConnectionCheck`. */
    method HandleConnectionCheck(payload: Payload) returns (response: Body)
      requires Valid()
      modifies this
      ensures Valid()
      ensures (Snapshot(), response) == Handlers.ConnectionCheck(old(Snapshot()), payload)
      ensures posts == old(posts) && options == old(options)
    {
      var story := payload.data;
      DoAction(AfterTest(story));
      response := EmptyBody;
    }

    /** `handle`. */
    method Handle(request: Payload) returns (reply: Reply)
      requires Valid()
      modifies this
      ensures Valid()
      ensures (Snapshot(), reply) == Handlers.Handle(old(Snapshot()), env, request)
      ensures !env.validMac(request) ==> reply == Failure(InvalidMacError) && Snapshot() == old(Snapshot())
      ensures env.validMac(request) && request.meta.event.None? ==>
                reply == Failure(NoEventTypeError) && Snapshot() == old(Snapshot())
    {
      if !env.validMac(request) {
        return Failure(InvalidMacError);
      }
      if request.meta.event.None? {
        return Failure(NoEventTypeError);
      }
      var payload := env.beforeHandle(request);
      if payload.meta.fbPageIds.Some? {
        UpdateOption(FbPagesKey, payload.meta.fbPageIds.value);
      }
      var response: Outcome;
      match Handlers.RouteOf(payload.meta.event) {
        case PublishRoute =>
          var body := HandlePublish(payload);
          response := Value(Some(body));
        case UpdateRoute =>
          response := HandleUpdate(payload);
        case DeleteRoute =>
          var body := HandleDelete(payload);
          response := Value(Some(body));
        case TestRoute =>
          var body := HandleConnectionCheck(payload);
          response := Value(Some(body));
        case MissingRoute =>
          response := Value(Handlers.MissingMethod());
      }
      if response.Failed? {
        return Failure(response.error);
      }
      var filtered := env.alterResponse(response.response);
      if filtered.Some? {
        reply := Response(filtered, Some(env.sign(filtered.value)));
      } else {
        reply := Response(None, None);
      }
    }
  }
}
