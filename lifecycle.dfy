/** Properties of requests in sequence: a story's life from publish to delete,
    and what any run of requests keeps true of the store, the log and the kses
    toggle. */
module Lifecycle {
  import opened Types
  import opened Store
  import opened Handlers
  import opened Records

  /** The state after the requests `ps` are handled one after another. */
  function Run(s: State, env: Env, ps: seq<Payload>): State
    decreases |ps|
  {
    if ps == [] then s else Run(Handle(s, env, ps[0]).0, env, ps[1..])
  }

  /** A publish that gets through answers with the id the insert assigned and
      the MAC of that answer, when no subscriber alters the response. */
  lemma PublishReplyIsSigned(s: State, env: Env, p: Payload)
    requires Admitted(env, p) && RouteOf(env.beforeHandle(p).meta.event).PublishRoute?
    requires forall v :: env.alterResponse(v) == v
    ensures var (t, reply) := Handle(s, env, p);
      var body := IdLink(Some(s.nextId), Some(env.permalink(t.posts, s.nextId)));
      reply == Response(Some(body), Some(env.sign(body))) && s.nextId in t.posts
  {
  }

  /** An admitted delete never fails, whether or not the post exists: it
      answers `{id: external_id, permalink: null}` with its MAC, when no
      subscriber alters the response. */
  lemma DeleteNeverFails(s: State, env: Env, p: Payload)
    requires Admitted(env, p) && RouteOf(env.beforeHandle(p).meta.event).DeleteRoute?
    requires forall v :: env.alterResponse(v) == v
    ensures var body := IdLink(env.beforeHandle(p).data.externalId, None);
      Handle(s, env, p).1 == Response(Some(body), Some(env.sign(body)))
  {
  }

  /** An admitted update of an existing post answers its id and permalink
      with the MAC, when no subscriber alters the response. */
  lemma UpdateOfExistingPostIsSigned(s: State, env: Env, p: Payload)
    requires Admitted(env, p) && RouteOf(env.beforeHandle(p).meta.event).UpdateRoute?
    requires Exists(s, env.beforeHandle(p).data.externalId)
    requires forall v :: env.alterResponse(v) == v
    ensures var (t, reply) := Handle(s, env, p);
      var id := env.beforeHandle(p).data.externalId.value;
      var body := IdLink(Some(id), Some(env.permalink(t.posts, id)));
      reply == Response(Some(body), Some(env.sign(body))) && t.posts.Keys == s.posts.Keys
  {
  }

  /** An unknown event changes nothing but the `fb-page-ids` option and, unless
      a subscriber turns the null into a value, answers null without a MAC. */
  lemma UnknownEventIsNull(s: State, env: Env, p: Payload)
    requires Admitted(env, p) && RouteOf(env.beforeHandle(p).meta.event).MissingRoute?
    requires env.alterResponse(None) == None
    ensures Handle(s, env, p) == (Configured(s, env.beforeHandle(p)), Response(None, None))
  {
  }

  /** The id publish assigns is the key of later requests: an update carrying it
      finds the post and keeps it under that id, and a delete carrying it
      removes exactly that post. */
  lemma PublishedIdIsDurable(s: State, env: Env, p: Payload, later: Payload)
    requires Valid(s)
    requires later.data.externalId == Publish(s, env, p).1.id
    ensures var t := Publish(s, env, p).0;
      && Update(t, env, later).1.Value?
      && Update(t, env, later).0.posts.Keys == t.posts.Keys
      && Delete(t, later).0.posts.Keys == s.posts.Keys
  {
  }

  /** Deleting twice leaves the same posts as deleting once. */
  lemma DeleteIsIdempotent(s: State, p: Payload)
    ensures Delete(Delete(s, p).0, p).0.posts == Delete(s, p).0.posts
  {
  }

  /** Replaying an update of an existing post leaves the posts the first
      delivery left: the upsert merges the same record into the same id. */
  lemma UpdateIsIdempotent(s: State, env: Env, p: Payload)
    requires Exists(s, p.data.externalId)
    ensures Update(Update(s, env, p).0, env, p).0.posts == Update(s, env, p).0.posts
  {
    var id := p.data.externalId.value;
    var t := Update(s, env, p).0;
    var rec := UpdateRecord(p.data, IsDraft(env, s.options, p.data), id);
    MergeIsIdempotent(s.posts[id], rec);
    assert t.posts[id] == MergePost(s.posts[id], rec);
  }

  /** The same through `handle`: an admitted update of an existing post,
      delivered twice, leaves the posts of the first delivery. */
  lemma HandledUpdateIsIdempotent(s: State, env: Env, p: Payload)
    requires Admitted(env, p) && RouteOf(env.beforeHandle(p).meta.event).UpdateRoute?
    requires Exists(s, env.beforeHandle(p).data.externalId)
    ensures Handle(Handle(s, env, p).0, env, p).0.posts == Handle(s, env, p).0.posts
  {
    var q := env.beforeHandle(p);
    var c := Configured(s, q);
    var t := Handle(s, env, p).0;
    assert t == Update(c, env, q).0;
    assert Configured(t, q) == t;
    UpdateIsIdempotent(c, env, q);
  }

  /** Publish is not idempotent: a replayed publish inserts a second copy of
      the story under the next id. */
  lemma PublishTwiceMakesTwoPosts(s: State, env: Env, p: Payload)
    requires Valid(s)
    ensures var t := Publish(s, env, p).0;
      Publish(t, env, p).0.posts.Keys == s.posts.Keys + {s.nextId, s.nextId + 1}
      && s.nextId !in s.posts && s.nextId + 1 !in t.posts
  {
  }

  /** The store invariant holds after any run of requests. */
  lemma {:induction false} RunKeepsValid(s: State, env: Env, ps: seq<Payload>)
    requires Valid(s)
    ensures Valid(Run(s, env, ps))
    decreases |ps|
  {
    if ps != [] {
      RunKeepsValid(Handle(s, env, ps[0]).0, env, ps[1..]);
    }
  }

  /** Over any run the action log only grows, the id counter never goes back,
      and sanitisation, once on, is on again after every request. */
  lemma {:induction false} RunOnlyAdvances(s: State, env: Env, ps: seq<Payload>)
    ensures s.log <= Run(s, env, ps).log
    ensures s.nextId <= Run(s, env, ps).nextId
    ensures s.kses ==> Run(s, env, ps).kses
    decreases |ps|
  {
    if ps != [] {
      RunOnlyAdvances(Handle(s, env, ps[0]).0, env, ps[1..]);
    }
  }

  /** A post leaves the store only through an admitted delete of its id. */
  lemma {:induction false} RunKeepsUndeleted(s: State, env: Env, ps: seq<Payload>, id: Id)
    requires id in s.posts
    requires forall i :: 0 <= i < |ps| ==> !DeletesPost(env, ps[i], id)
    ensures id in Run(s, env, ps).posts
    decreases |ps|
  {
    if ps != [] {
      RunKeepsUndeleted(Handle(s, env, ps[0]).0, env, ps[1..], id);
    }
  }

  /** Ids are never reused: every post a run creates has an id above all ids
      the store held before, so a deleted story's id never names a new post. */
  lemma {:induction false} RunAssignsFreshIds(s: State, env: Env, ps: seq<Payload>)
    requires Valid(s)
    ensures forall id :: id in Run(s, env, ps).posts && id !in s.posts ==> s.nextId <= id
    ensures forall id, prior :: id in Run(s, env, ps).posts && id !in s.posts && prior in s.posts ==> prior < id
    decreases |ps|
  {
    if ps != [] {
      RunAssignsFreshIds(Handle(s, env, ps[0]).0, env, ps[1..]);
    }
  }

  /** Requests with an invalid MAC, however many, change nothing. */
  lemma {:induction false} RunRejectsForgeries(s: State, env: Env, ps: seq<Payload>)
    requires forall i :: 0 <= i < |ps| ==> !env.validMac(ps[i])
    ensures Run(s, env, ps) == s
    decreases |ps|
  {
    if ps != [] {
      RunRejectsForgeries(s, env, ps[1..]);
    }
  }
}
